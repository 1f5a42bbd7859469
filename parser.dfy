/**
 * The resumable RESP2/RESP3 decoder that `createParserState` builds in
 * `src/resp3_parser.ts`: a byte buffer, a read cursor into it, a stack of
 * suspended routines, and a blob composer. Each routine either returns a
 * value, raises, or pushes itself (with its locals) and returns `undefined`
 * so that the next call, given more bytes, resumes exactly where it stopped.
 *
 * Every routine is proved against the continuation reading of the stack
 * (module `Continuation`): what it returns is what that reading gives, and
 * the frames it leaves read, on any bytes that may follow, what the routine
 * would have read had those bytes been there at once.
 */
module Resp3 {
  import opened Utils
  import opened Composer
  import opened Resp
  import opened Lines
  import opened Reference
  import opened Continuation
  import opened Resumption
  import opened Suspension
  import opened Reading

  /*
   * The conversions `call` applies to what the routines return.
   */

  function ReplyValue(v: Reply): Value { AReply(v) }
  function TextValue(t: string): Value { AText(t) }
  function SizeValue(z: Size): Value { ASize(z) }
  function Uint32Value(n: int): Value { ASize(Sized(n)) }
  function BlobValue(b: Blob): Value { ABlob(b) }
  function EntryValue(e: Entry): Value { AnEntry(e) }
  function MapValue(es: seq<Entry>): Value { AReply(Map(es)) }

  /**
   * The state of one decoder: `chunk`, `count` and `stack` of the closure,
   * the options it was created with, and its composer.
   */
  class ParserState {
    /** `enableResp3`: which dispatcher `parse` is. */
    const resp3: bool
    /** `decodeBulk`: `$` payloads become strings rather than `Bulk`s. */
    const decodeBulk: bool
    /** The `TextDecoder` used by `decode`. */
    const utf8: seq<Byte> -> string
    /** `Bulk.prototype.decode`, applied to `Bulk` map keys. */
    const bulkText: seq<Byte> -> string
    const composer: BlobComposer

    var chunk: seq<Byte>
    var count: nat
    var stack: seq<Frame>
    /** Every byte appended since the last reset, and where `chunk` starts among them. */
    ghost var received: seq<Byte>
    ghost var offset: nat
    /** Where, among the bytes received, the reply being read starts. */
    ghost var origin: nat

    /** `createParserState(options)`: an empty buffer, the cursor at 0, no frames. */
    constructor (resp3: bool, decodeBulk: bool, utf8: seq<Byte> -> string, bulkText: seq<Byte> -> string)
      ensures this.resp3 == resp3 && this.decodeBulk == decodeBulk
      ensures this.utf8 == utf8 && this.bulkText == bulkText
      ensures chunk == EmptyBuffer && count == 0 && stack == []
      ensures fresh(composer) && composer.parts == []
      ensures Valid() && received == [] && origin == 0
    {
      this.resp3 := resp3;
      this.decodeBulk := decodeBulk;
      this.utf8 := utf8;
      this.bulkText := bulkText;
      composer := new BlobComposer();
      chunk := EmptyBuffer;
      count := 0;
      stack := [];
      received := [];
      offset := 0;
      origin := 0;
      new;
      ReadsRestart(Opts(), HeldBytes(), received, 0);
    }

    /** The bytes not yet consumed, plus the frames that still wait for some. */
    function Measure(): nat
      reads this
    {
      |stack| + (if count < |chunk| then |chunk| - count else 0)
    }

    /** The bytes the composer holds. */
    ghost function HeldBytes(): seq<Byte>
      reads composer
    {
      Flatten(composer.parts)
    }

    /**
     * The machine's invariant: the cursor is not before the buffer, the
     * stack is one chain of frames that yields a reply, the composer holds
     * bytes only for a frame that put them there, `chunk` holds the latest
     * bytes received, and the stack with the composer reads, whatever bytes
     * follow, the reply that starts at `origin` among all bytes received.
     */
    ghost predicate Valid()
      reads this, composer
    {
      0 <= count && Chain(stack, ReplyK) && Clean(stack, composer.parts) &&
      offset + |chunk| == |received| && chunk == received[offset..] &&
      ReadsFrom(Opts(), stack, HeldBytes(), received, offset + count, origin)
    }

    /** The options, as the reference reading takes them. */
    function Opts(): Options
    {
      Options(resp3, decodeBulk, utf8, bulkText)
    }

    /**
     * A routine did what the reference reading `o` of the same bytes does: the
     * same value with the cursor where the reading stops, a suspension where
     * the reading runs short, the same exception where it fails.
     */
    ghost predicate Agrees<T>(r: Step<T>, o: Out<T>)
      reads this
    {
      match o
      case Got(v, n) => r == Ready(v) && count == n
      case Short => r.Pending?
      case Fail(e) => r == Threw(e)
    }

    /** `Agrees`, and a value leaves the composer empty. */
    ghost predicate AgreesClean<T>(r: Step<T>, o: Out<T>)
      reads this, composer
    {
      Agrees(r, o) && (r.Ready? ==> composer.parts == [])
    }

    /**
     * What `call` returned follows the continuation reading `o`: the value
     * read with the cursor where it stops; for a blob, the composer holding
     * the bytes the reading gathered, the parts `parts0` untouched by `''`
     * and `null`; a suspension where it runs short, the exception where it
     * fails.
     */
    ghost predicate Follows(r: Step<Value>, o: Out<Read>, parts0: seq<seq<Byte>>)
      reads this, composer
    {
      match o
      case Got(Val(v), n) => r == Ready(v) && count == n && !v.ABlob?
      case Got(Held(blob, bs), n) =>
        r == Ready(ABlob(blob)) && count == n && HeldBytes() == bs && (!blob.Composed? ==> composer.parts == parts0)
      case Short => r.Pending?
      case Fail(e) => r == Threw(e)
    }

    /** `Follows` for a blob routine. */
    ghost predicate Holds(r: Step<Blob>, o: Out<Read>, parts0: seq<seq<Byte>>)
      reads this, composer
    {
      Follows(MapStep(r, BlobValue), o, parts0)
    }

    /**
     * The stack left behind reads, on any bytes that follow, what frame `f`
     * resumed over `below0` at `c0` with the composer holding `h0` reads.
     */
    ghost predicate Resumes(f: Frame, below0: seq<Frame>, h0: seq<Byte>, c0: nat)
      reads this, composer
    {
      stack != [] && SameAs(Opts(), stack, HeldBytes(), chunk, count, f, below0, h0, c0)
    }

    /** The stack left behind reads as `call(d)` on the stack `stk0` at `c0`. */
    ghost predicate Continues(d: Proc, stk0: seq<Frame>, h0: seq<Byte>, c0: nat)
      reads this, composer
    {
      CallSame(Opts(), d, stack, HeldBytes(), chunk, count, stk0, h0, c0)
    }

    /**
     * With a composer that was accounted for, a suspension leaves it
     * accounted for, and an exception or a value leaves it empty, unless
     * `part` says the value is a blob, whose bytes are still to be composed,
     * or a size, which may be read while a streamed blob is being composed.
     */
    ghost predicate Tidy<T>(r: Step<T>, clean: bool, part: bool)
      reads this, composer
    {
      clean ==>
        (r.Pending? ==> Clean(stack, composer.parts)) &&
        (r.Threw? || (r.Ready? && !part) ==> composer.parts == [])
    }

    /** The kinds of value whose routines are read whatever the composer holds. */
    static predicate PartKind(k: Kind)
    {
      k == TextK || k == AsciiTextK || k == SizeK || k == BlobK
    }

    /**
     * `call(d)` on the stack `stk0` at `c0`, the composer holding `parts0`,
     * did what the continuation reading of that call does, and left the
     * composer as tidy as it found it; sizes and ASCII lines do not touch it,
     * and a `''` or `null` blob comes from a chain that composes nothing.
     */
    ghost predicate CalledAs(r: Step<Value>, d: Proc, stk0: seq<Frame>, c0: nat, parts0: seq<seq<Byte>>)
      reads this, composer
    {
      var h0 := Flatten(parts0);
      (PartKind(Expected(d)) || Clean(stk0, parts0) ==>
         Follows(r, CallK(Opts(), d, stk0, h0, chunk, c0), parts0) &&
         (r.Pending? ==> Continues(d, stk0, h0, c0))) &&
      Tidy(r, Clean(stk0, parts0), Expected(d) == BlobK || Expected(d) == SizeK) &&
      (Expected(d) == SizeK || Expected(d) == AsciiTextK ==> composer.parts == parts0) &&
      (r.Ready? && r.value.ABlob? && !r.value.blob.Composed? ==> !Composing(stk0))
    }

    /** `CalledAs` for the frame `f` resumed over `below`. */
    ghost predicate ResumedAs(r: Step<Value>, f: Frame, below: seq<Frame>, c0: nat, parts0: seq<seq<Byte>>)
      reads this, composer
    {
      var h0 := Flatten(parts0);
      (PartKind(Produces(f)) || Clean(below + [f], parts0) ==>
         Follows(r, FrameK(Opts(), f, below, h0, chunk, c0), parts0) &&
         (r.Pending? ==> Resumes(f, below, h0, c0))) &&
      Tidy(r, Clean(below + [f], parts0), Produces(f) == BlobK || Produces(f) == SizeK) &&
      (Produces(f) == SizeK || Produces(f) == AsciiTextK ==> composer.parts == parts0) &&
      (r.Ready? && r.value.ABlob? && !r.value.blob.Composed? ==> !Composing(below + [f]))
    }

    /**
     * `process()` answered what the reference reading `o` of every byte
     * received gives: the reply with the cursor where it stops, `undefined`
     * where it runs short, the exception where it fails.
     */
    ghost predicate Answers(r: Step<Reply>, o: Out<Reply>)
      reads this
    {
      match o
      case Got(v, n) => r == Ready(v) && offset + count == n
      case Short => r.Pending?
      case Fail(e) => r == Threw(e)
    }

    /** No truthy byte under the cursor: where every routine suspends. */
    predicate Starved()
      reads this
    {
      !Truthy(At(chunk, count))
    }

    /**
     * The outcome of a routine that scans one line from `start`: with a CR in
     * the buffer it returns `done` with the cursor past the CR LF; otherwise it
     * suspends as `frame`, the cursor on the byte that stopped the scan.
     */
    ghost predicate ScanOutcome<T>(r: Step<T>, start: int, done: T, frame: Frame)
      reads this
    {
      if Terminated(chunk, start) then r == Ready(done) && count == ScanStop(chunk, start) + 2 && stack == []
      else r == Pending && count == ScanStop(chunk, start) && stack == [frame]
    }

    /**
     * The outcome of `parseDecimals` from `start` with the running value `acc`:
     * the signed value of all the digits, a `BigInt` once some prefix reaches
     * `Number.MAX_SAFE_INTEGER`, a plain number otherwise.
     */
    ghost predicate DecimalsOutcome(r: Step<Reply>, sign: int, acc: int, start: int)
      reads this
    {
      var digits := LineBytes(chunk, start);
      var v := Accumulate(acc, digits);
      if Overflows(acc, digits) then ScanOutcome(r, start, BigInt(sign * v), BigDecimalsF(v, sign))
      else ScanOutcome(r, start, Int(sign * v), DecimalsF(v, sign))
    }

    /*
     * What every routine promises about the machine: the cursor never moves
     * back; a value or an exception leaves no frames behind; a suspension
     * leaves one chain of frames that yields a `k`, and stops where there is
     * no data byte (or, for the streamed-element routines, with nothing pushed
     * on the `.` that ends the stream).
     */
    ghost predicate Settled<T>(r: Step<T>, k: Kind, c0: int, dotOk: bool)
      reads this
    {
      c0 <= count &&
      (!r.Pending? ==> stack == []) &&
      (r.Pending? ==> Chain(stack, k) && (Starved() || (dotOk && stack == [] && At(chunk, count) == Some(Dot))))
    }

    /**
     * With no byte left to read, a resumed routine puts back exactly the
     * frames `top` on the stack it found and changes nothing else.
     */
    ghost predicate Idle<T>(r: Step<T>, c0: int, below: seq<Frame>, parts0: seq<seq<Byte>>, top: seq<Frame>)
      reads this, composer
    {
      r == Pending && count == c0 && stack == below + top && composer.parts == parts0
    }

    /**
     * `parseUint32`: digits up to the CR, folded into `o`. Without a CR it
     * suspends with the value so far, the cursor on the byte that stopped it.
     */
    method ParseUint32(o0: int) returns (r: Step<int>)
      requires stack == []
      modifies this`count, this`stack
      ensures var v := Accumulate(o0, LineBytes(chunk, old(count)));
              ScanOutcome(r, old(count), v, Uint32F(v))
      ensures Settled(r, SizeK, old(count), false) && (r.Ready? ==> count >= old(count) + 2)
      ensures r.Pending? ==> Resumes(Uint32F(o0), [], HeldBytes(), old(count))
      ensures old(count) >= |chunk| ==> Idle(r, old(count), old(stack), old(composer.parts), [Uint32F(o0)])
    {
      var stop, o := FoldDigits(chunk, count, o0);
      if Truthy(At(chunk, stop)) {
        count := stop + 2;
        r := Ready(o);
      } else {
        count := stop;
        LeafChain(Uint32F(o), SizeK);
        stack := stack + [Uint32F(o)];
        r := Pending;
        Uint32Suspends(Opts(), o0, HeldBytes(), HeldBytes(), chunk, old(count));
      }
    }

    /** `parseBigIntDecimals`: the remaining digits folded exactly, then signed. */
    method ParseBigIntDecimals(sign: int, i0: int) returns (r: Step<Reply>)
      requires stack == [] && (sign == 1 || sign == -1)
      modifies this`count, this`stack
      ensures var v := Accumulate(i0, LineBytes(chunk, old(count)));
              ScanOutcome(r, old(count), BigInt(sign * v), BigDecimalsF(v, sign))
      ensures Settled(r, ReplyK, old(count), false)
      ensures r.Pending? ==> Resumes(BigDecimalsF(i0, sign), [], HeldBytes(), old(count))
      ensures old(count) >= |chunk| ==> Idle(r, old(count), old(stack), old(composer.parts), [BigDecimalsF(i0, sign)])
    {
      var stop, i := FoldDigits(chunk, count, i0);
      if Truthy(At(chunk, stop)) {
        count := stop + 2;
        r := Ready(BigInt(if sign < 0 then -i else i));
      } else {
        count := stop;
        LeafChain(BigDecimalsF(i, sign), ReplyK);
        stack := stack + [BigDecimalsF(i, sign)];
        r := Pending;
        BigDecimalsSuspends(Opts(), i0, sign, HeldBytes(), HeldBytes(), chunk, old(count));
      }
    }

    /**
     * `parseDecimals`: digits folded into a number; as soon as the running
     * value reaches `Number.MAX_SAFE_INTEGER` the rest is read as a `BigInt`.
     */
    method ParseDecimals(sign: int, i0: int) returns (r: Step<Reply>)
      requires stack == [] && (sign == 1 || sign == -1)
      modifies this`count, this`stack
      ensures DecimalsOutcome(r, sign, i0, old(count))
      ensures Agrees(r, RefDecimals(chunk, old(count), sign, i0))
      ensures Settled(r, ReplyK, old(count), false)
      ensures r.Pending? ==> Resumes(DecimalsF(i0, sign), [], HeldBytes(), old(count))
      ensures old(count) >= |chunk| ==> Idle(r, old(count), old(stack), old(composer.parts), [DecimalsF(i0, sign)])
    {
      ghost var start := count;
      var m, i, big := FoldDecimals(chunk, count, i0);
      if big {
        ghost var e := ScanStop(chunk, start);
        count := m;
        r := ParseBigIntDecimals(sign, i);
        SpanSplit(chunk, start, m, e);
        AccumulateAppend(i0, Span(chunk, start, m), Span(chunk, m, e));
        OverflowsExtends(i0, Span(chunk, start, m), Span(chunk, m, e));
      } else if Truthy(At(chunk, m)) {
        count := m + 2;
        r := Ready(Int(sign * i));
      } else {
        count := m;
        LeafChain(DecimalsF(i, sign), ReplyK);
        stack := stack + [DecimalsF(i, sign)];
        r := Pending;
      }
      if r.Pending? {
        assert DecimalsOutcome(r, sign, i0, start);
        DecimalsSuspends(Opts(), i0, sign, HeldBytes(), HeldBytes(), chunk, start);
      }
    }

    /** `parseInt`: `0` as a shortcut, an optional sign, then decimals. */
    method ParseInt() returns (r: Step<Reply>)
      requires stack == []
      modifies this`count, this`stack
      ensures var x := At(chunk, old(count));
              if x.None? then r == Pending && count == old(count) && stack == [IntF]
              else if x.value == DigitZero then r == Ready(Int(0)) && count == old(count) + 3 && stack == []
              else if x.value == Plus then DecimalsOutcome(r, 1, 0, old(count) + 1)
              else if x.value == Minus then DecimalsOutcome(r, -1, 0, old(count) + 1)
              else DecimalsOutcome(r, 1, 0, old(count))
      ensures Agrees(r, RefInt(chunk, old(count)))
      ensures Settled(r, ReplyK, old(count), false)
      ensures r.Pending? ==> Resumes(IntF, [], HeldBytes(), old(count))
      ensures old(count) >= |chunk| ==> Idle(r, old(count), old(stack), old(composer.parts), [IntF])
    {
      var x := At(chunk, count);
      if x.None? {
        LeafChain(IntF, ReplyK);
        PushIdle(Opts(), IntF, stack, HeldBytes(), chunk, count);
        stack := stack + [IntF];
        return Pending;
      } else if x.value == DigitZero {
        count := count + 3;
        return Ready(Int(0));
      }
      r := ParseSigned();
    }

    /** `parseInt` past the `0` shortcut: an optional sign, then decimals. */
    method ParseSigned() returns (r: Step<Reply>)
      requires stack == [] && At(chunk, count).Some? && At(chunk, count).value != DigitZero
      modifies this`count, this`stack
      ensures var x := At(chunk, old(count)).value;
              if x == Plus then DecimalsOutcome(r, 1, 0, old(count) + 1)
              else if x == Minus then DecimalsOutcome(r, -1, 0, old(count) + 1)
              else DecimalsOutcome(r, 1, 0, old(count))
      ensures Agrees(r, RefInt(chunk, old(count)))
      ensures Settled(r, ReplyK, old(count), false)
      ensures r.Pending? ==> Resumes(IntF, [], HeldBytes(), old(count))
    {
      var x := chunk[count];
      if x == Plus || x == Minus {
        count := count + 1;
      }
      var sign := if x == Minus then -1 else 1;
      r := ParseDecimals(sign, 0);
      if r.Pending? {
        IntSuspends(Opts(), stack, HeldBytes(), chunk, count, HeldBytes(), old(count));
      }
    }

    /** `parseNil`: skips the CR LF and gives `null`. */
    method ParseNil() returns (r: Step<Reply>)
      requires stack == []
      modifies this`count
      ensures r == Ready(Null) && count == old(count) + 2
      ensures Settled(r, ReplyK, old(count), false)
    {
      count := count + 2;
      return Ready(Null);
    }

    /** `parseBoolean`: any present byte is read, and only `t` is true. */
    method ParseBoolean() returns (r: Step<Reply>)
      requires stack == []
      modifies this`count, this`stack
      ensures var x := At(chunk, old(count));
              if Truthy(x) then r == Ready(Bool(x.value == LetterT)) && count == old(count) + 3 && stack == []
              else r == Pending && count == old(count) && stack == [BooleanF]
      ensures Agrees(r, RefBoolean(chunk, old(count)))
      ensures Settled(r, ReplyK, old(count), false)
      ensures r.Pending? ==> Resumes(BooleanF, [], HeldBytes(), old(count))
      ensures old(count) >= |chunk| ==> Idle(r, old(count), old(stack), old(composer.parts), [BooleanF])
    {
      var x := At(chunk, count);
      if Truthy(x) {
        count := count + 3;
        return Ready(Bool(x.value == LetterT));
      }
      LeafChain(BooleanF, ReplyK);
      PushIdle(Opts(), BooleanF, stack, HeldBytes(), chunk, count);
      stack := stack + [BooleanF];
      return Pending;
    }

    /** `parseAsciiLineBytes`: the line's bytes looked up in `ASCII` and appended to `o`. */
    method ParseAsciiLineBytes(o0: string) returns (r: Step<string>)
      requires stack == []
      modifies this`count, this`stack
      ensures var t := AsciiJs(o0, LineBytes(chunk, old(count)));
              ScanOutcome(r, old(count), t, AsciiLineF(t))
      ensures Agrees(r, AsciiK(o0, chunk, old(count)))
      ensures o0 == "" ==> Agrees(r, RefAsciiLine(chunk, old(count)))
      ensures Settled(r, AsciiTextK, old(count), false) && (r.Ready? ==> Measure() < old(Measure()))
      ensures r.Pending? ==> Resumes(AsciiLineF(o0), [], HeldBytes(), old(count))
      ensures old(count) >= |chunk| ==> Idle(r, old(count), old(stack), old(composer.parts), [AsciiLineF(o0)])
    {
      var stop, o := FoldAscii(chunk, count, o0);
      if Truthy(At(chunk, stop)) {
        count := stop + 2;
        r := Ready(o);
      } else {
        count := stop;
        LeafChain(AsciiLineF(o), AsciiTextK);
        stack := stack + [AsciiLineF(o)];
        r := Pending;
        AsciiSuspends(Opts(), o0, HeldBytes(), HeldBytes(), chunk, old(count));
      }
    }

    /**
     * `parseLine`: the bytes up to the CR join what the composer already
     * holds; with the CR in the buffer the whole line is decoded.
     */
    method ParseLine() returns (r: Step<string>)
      requires stack == []
      modifies this`count, this`stack, composer`parts
      ensures var line := LineBytes(chunk, old(count));
              var parts := old(composer.parts) + (if line == [] then [] else [line]);
              if Terminated(chunk, old(count))
              then r == Ready(Decoded(Flatten(parts), utf8)) && composer.parts == [] &&
                   count == ScanStop(chunk, old(count)) + 2 && stack == []
              else r == Pending && composer.parts == parts &&
                   count == ScanStop(chunk, old(count)) && stack == [LineF]
      ensures Agrees(r, LineK(Opts(), old(HeldBytes()), chunk, old(count)))
      ensures old(composer.parts) == [] ==> AgreesClean(r, RefLine(Opts(), chunk, old(count)))
      ensures Settled(r, TextK, old(count), false) && (r.Ready? ==> Measure() < old(Measure()))
      ensures r.Pending? ==> Resumes(LineF, [], old(HeldBytes()), old(count))
      ensures old(count) >= |chunk| ==> Idle(r, old(count), old(stack), old(composer.parts), [LineF])
    {
      ghost var h0, c0, parts0 := HeldBytes(), count, composer.parts;
      r := TakeLine();
      if r.Pending? {
        LineSuspends(Opts(), stack, HeldBytes(), chunk, count, h0, c0);
      }
      LineOutcome(r, c0, parts0);
    }

    /** The steps of `parseLine`: the line's bytes go to the composer, composed once the CR is seen. */
    method TakeLine() returns (r: Step<string>)
      requires stack == []
      modifies this`count, this`stack, composer`parts
      ensures var line := LineBytes(chunk, old(count));
              var parts := old(composer.parts) + (if line == [] then [] else [line]);
              if Terminated(chunk, old(count))
              then r == Ready(Decoded(Flatten(parts), utf8)) && composer.parts == [] &&
                   count == ScanStop(chunk, old(count)) + 2 && stack == []
              else r == Pending && composer.parts == parts &&
                   count == ScanStop(chunk, old(count)) && stack == [LineF] &&
                   HeldBytes() == old(HeldBytes()) + line
    {
      var m := LineEnd(chunk, count);
      ghost var line := LineBytes(chunk, count);
      if m > count {
        composer.Add(chunk[count..m]);
      }
      assert composer.parts == old(composer.parts) + (if line == [] then [] else [line]);
      assert Flatten(composer.parts) == Flatten(old(composer.parts)) + line;
      count := m + 2;
      if Truthy(At(chunk, m)) {
        assert m < |chunk|;
        var blob := composer.Compose();
        var text := Decode(blob, utf8);
        r := Ready(text);
      } else {
        count := count - 2;
        stack := stack + [LineF];
        r := Pending;
      }
    }

    /** What `parseLine` left behind, read against the continuation and the reference reading. */
    lemma LineOutcome(r: Step<string>, c0: nat, parts0: seq<seq<Byte>>)
      requires var line := LineBytes(chunk, c0);
               var parts := parts0 + (if line == [] then [] else [line]);
               if Terminated(chunk, c0)
               then r == Ready(Decoded(Flatten(parts), utf8)) && composer.parts == [] &&
                    count == ScanStop(chunk, c0) + 2 && stack == []
               else r == Pending && composer.parts == parts &&
                    count == ScanStop(chunk, c0) && stack == [LineF]
      requires r.Pending? ==> Resumes(LineF, [], Flatten(parts0), c0)
      ensures Agrees(r, LineK(Opts(), Flatten(parts0), chunk, c0))
      ensures parts0 == [] ==> AgreesClean(r, RefLine(Opts(), chunk, c0))
      ensures Settled(r, TextK, c0, false)
      ensures c0 >= |chunk| ==> Idle(r, c0, [], parts0, [LineF])
    {
      if !Terminated(chunk, c0) {
        LeafChain(LineF, TextK);
      } else {
        var line := LineBytes(chunk, c0);
        FlattenAppend(parts0, if line == [] then [] else [line]);
        FlattenOne(line);
      }
    }

    /** `parseSize`: `?` is streamed, `0` and `-` are shortcuts, anything else is `parseUint32(0)`. */
    method ParseSize() returns (r: Step<Size>)
      requires stack == []
      modifies this`count, this`stack
      ensures var x := At(chunk, old(count));
              if x == Some(Question) then r == Ready(Streamed) && count == old(count) + 3 && stack == []
              else if x == Some(DigitZero) then r == Ready(Sized(0)) && count == old(count) + 3 && stack == []
              else if x == Some(Minus) then r == Ready(Sized(-1)) && count == old(count) + 4 && stack == []
              else if Truthy(x) then
                var v := Accumulate(0, LineBytes(chunk, old(count)));
                ScanOutcome(r, old(count), Sized(v), Uint32F(v))
              else r == Pending && count == old(count) && stack == [SizeF]
      ensures Agrees(r, RefSize(chunk, old(count)))
      ensures Settled(r, SizeK, old(count), false) && (r.Ready? ==> Measure() < old(Measure()) && count >= old(count) + 2)
      ensures r.Pending? ==> Resumes(SizeF, [], HeldBytes(), old(count))
      ensures old(count) >= |chunk| ==> Idle(r, old(count), old(stack), old(composer.parts), [SizeF])
    {
      var x := At(chunk, count);
      if x == Some(Question) {
        count := count + 3;
        return Ready(Streamed);
      } else if x == Some(DigitZero) {
        count := count + 3;
        return Ready(Sized(0));
      } else if x == Some(Minus) {
        count := count + 4;
        return Ready(Sized(-1));
      } else if Truthy(x) {
        var o := ParseUint32(0);
        r := if o.Ready? then Ready(Sized(o.value)) else Pending;
        SizeIsUint32(chunk, old(count));
        if r.Pending? {
          SizeSuspends(Opts(), stack, HeldBytes(), chunk, count, HeldBytes(), old(count));
        }
      } else {
        LeafChain(SizeF, SizeK);
        PushIdle(Opts(), SizeF, stack, HeldBytes(), chunk, count);
        stack := stack + [SizeF];
        return Pending;
      }
    }

    /**
     * `captureUncomposedBlob`: as much of the `s` outstanding payload bytes as
     * the buffer holds goes to the composer; the CR LF after the payload is
     * skipped once all of it has arrived.
     */
    method CaptureUncomposedBlob(s: nat) returns (r: Step<Blob>)
      requires stack == [] && 0 <= count && s > 0
      modifies this`count, this`stack, composer`parts
      ensures var m := Take(s, |chunk| - old(count));
              composer.parts == old(composer.parts) + (if m > 0 then [chunk[old(count)..old(count) + m]] else []) &&
              if m == s then r == Ready(Composed) && count == old(count) + m + 2 && stack == []
              else r == Pending && count == old(count) + m && stack == [UncomposedBlobF(s - m)]
      ensures Holds(r, FrameK(Opts(), UncomposedBlobF(s), [], old(HeldBytes()), chunk, old(count)), old(composer.parts))
      ensures Settled(r, BlobK, old(count), false)
      ensures r.Pending? ==> Resumes(UncomposedBlobF(s), [], old(HeldBytes()), old(count))
      ensures old(count) >= |chunk| ==> Idle(r, old(count), old(stack), old(composer.parts), [UncomposedBlobF(s)])
    {
      var m := Take(s, |chunk| - count);
      var rest := s - m;
      if m > 0 {
        composer.Add(chunk[count..count + m]);
        FlattenOne(chunk[count..count + m]);
      }
      count := count + m + 2;
      if rest == 0 {
        return Ready(Composed);
      }
      count := count - 2;
      LeafChain(UncomposedBlobF(rest), BlobK);
      stack := stack + [UncomposedBlobF(rest)];
      PayloadSuspends(Opts(), stack, HeldBytes(), chunk, count, old(HeldBytes()), old(count), s);
      return Pending;
    }

    /** `call(proc)` for one of the routines, in the order the source names them. */
    static function CallRank(d: Proc): nat
    {
      match d
      case ParseP => 8
      case Resp3P => 8
      case StreamedReplyP => 12
      case LineP => 4
      case AsciiLineP => 4
      case SizeP => 4
      case BlobP => 12
      case ChunkP => 16
      case HashP => 12
      case EntryP => 20
      case StreamedEntryP => 24
    }

    /** `call(proc)` never asks for more than the routine it may start can suspend without pushing. */
    static predicate Silent(d: Proc)
    {
      d == ParseP || d == Resp3P || d == StreamedReplyP || d == StreamedEntryP
    }

    /**
     * `call(proc)`: resume the frame on top of the stack if there is one,
     * otherwise start `proc`. Every value it returns consumed input, sizes
     * and blobs never raise, and what it does is what the continuation
     * reading of `call(proc)` on the stack it found does.
     */
    method Call(d: Proc) returns (r: Step<Value>)
      requires Chain(stack, Expected(d)) && 0 <= count
      requires d == StreamedEntryP && stack == [] ==> At(chunk, count).Some?
      modifies this`count, this`stack, composer`parts
      decreases Measure(), CallRank(d) + 1
      ensures Settled(r, Expected(d), old(count), d == StreamedReplyP || d == StreamedEntryP)
      ensures r.Ready? ==> Has(r.value, Expected(d)) && Measure() < old(Measure())
      ensures Expected(d) == SizeK || Expected(d) == BlobK ==> !r.Threw?
      ensures r.Pending? && !Silent(d) ==> stack != []
      ensures r.Pending? && old(stack) != [] ==> stack != []
      ensures r.Pending? && stack == [] ==>
                count == old(count) && composer.parts == old(composer.parts) &&
                (At(chunk, old(count)).None? || (At(chunk, old(count)) == Some(Dot) && (d == StreamedReplyP || d == StreamedEntryP)))
      ensures (d == StreamedReplyP || d == StreamedEntryP) && old(stack) == [] && At(chunk, old(count)) == Some(Dot) ==>
                r == Pending && count == old(count) && stack == [] && composer.parts == old(composer.parts)
      ensures r.Ready? && r.value.ASize? ==> count >= old(count) + 2
      ensures r.Ready? && r.value.ABlob? && !r.value.blob.Composed? ==> count >= old(count) + 2
      ensures old(count) >= |chunk| && (old(stack) != [] || d == ParseP || d == Resp3P) ==>
                Idle(r, old(count), old(stack), old(composer.parts), [])
      ensures CalledAs(r, d, old(stack), old(count), old(composer.parts))
    {
      if stack != [] {
        r := CallResume(d);
      } else if d == ParseP || d == Resp3P || d == StreamedReplyP || d == HashP {
        r := StartReply(d);
      } else {
        r := StartPart(d);
      }
    }

    /** `call(proc)` with a suspended routine on top of the stack: that routine is resumed. */
    method CallResume(d: Proc) returns (r: Step<Value>)
      requires stack != [] && Chain(stack, Expected(d)) && 0 <= count
      modifies this`count, this`stack, composer`parts
      decreases Measure(), CallRank(d)
      ensures Settled(r, Expected(d), old(count), false)
      ensures r.Ready? ==> Has(r.value, Expected(d)) && Measure() < old(Measure())
      ensures Expected(d) == SizeK || Expected(d) == BlobK ==> !r.Threw?
      ensures r.Pending? ==> stack != []
      ensures r.Ready? && r.value.ASize? ==> count >= old(count) + 2
      ensures r.Ready? && r.value.ABlob? && !r.value.blob.Composed? ==> count >= old(count) + 2
      ensures old(count) >= |chunk| ==> Idle(r, old(count), old(stack), old(composer.parts), [])
      ensures CalledAs(r, d, old(stack), old(count), old(composer.parts))
    {
      ChainPop(stack, Expected(d));
      var f := stack[|stack| - 1];
      ghost var below := stack[..|stack| - 1];
      ghost var c0, parts0 := count, composer.parts;
      assert below + [f] == stack;
      stack := stack[..|stack| - 1];
      r := Resume(f);
      ResumedCalled(r, d, f, below, c0, parts0);
    }

    /** What a frame resumed over `below` did is what `call(d)` did on `below + [f]`. */
    lemma ResumedCalled(r: Step<Value>, d: Proc, f: Frame, below: seq<Frame>, c0: nat, parts0: seq<seq<Byte>>)
      requires Fits(Produces(f), Expected(d))
      requires Settled(r, Produces(f), c0, false) && ResumedAs(r, f, below, c0, parts0)
      requires r.Ready? ==> Has(r.value, Produces(f))
      ensures Settled(r, Expected(d), c0, false)
      ensures r.Ready? ==> Has(r.value, Expected(d))
      ensures CalledAs(r, d, below + [f], c0, parts0)
    {
      var h0 := Flatten(parts0);
      assert CallK(Opts(), d, below + [f], h0, chunk, c0) == FrameK(Opts(), f, below, h0, chunk, c0) by {
        assert (below + [f])[..|below|] == below;
      }
      assert PartKind(Expected(d)) ==> Produces(f) == Expected(d);
      assert Expected(d) == SizeK || Expected(d) == BlobK ==> Produces(f) == Expected(d);
      if r.Pending? {
        ChainWidens(stack, Produces(f), Expected(d));
        if PartKind(Produces(f)) || Clean(below + [f], parts0) {
          SameAsCall(Opts(), d, stack, HeldBytes(), chunk, count, f, below, h0, c0);
        }
      }
    }

    /** `call(proc)` with nothing to resume, for the routines that produce replies. */
    method StartReply(d: Proc) returns (r: Step<Value>)
      requires d == ParseP || d == Resp3P || d == StreamedReplyP || d == HashP
      requires stack == [] && 0 <= count
      modifies this`count, this`stack, composer`parts
      decreases Measure(), CallRank(d) - 1
      ensures Settled(r, Expected(d), old(count), d == StreamedReplyP)
      ensures r.Ready? ==> Has(r.value, Expected(d)) && Measure() < old(Measure())
      ensures r.Pending? && !Silent(d) ==> stack != []
      ensures r.Pending? && stack == [] ==>
                count == old(count) && composer.parts == old(composer.parts) &&
                (At(chunk, old(count)).None? || (At(chunk, old(count)) == Some(Dot) && d == StreamedReplyP))
      ensures d == StreamedReplyP && At(chunk, old(count)) == Some(Dot) ==>
                r == Pending && count == old(count) && stack == [] && composer.parts == old(composer.parts)
      ensures old(count) >= |chunk| && (d == ParseP || d == Resp3P) ==> Idle(r, old(count), [], old(composer.parts), [])
      ensures CalledAs(r, d, [], old(count), old(composer.parts))
    {
      ghost var h0, c0, parts0 := HeldBytes(), count, composer.parts;
      if d == ParseP || d == Resp3P || d == StreamedReplyP {
        var x;
        if d == ParseP {
          x := Dispatch(resp3);
        } else if d == Resp3P {
          x := Dispatch(true);
        } else {
          x := ParseStreamedReply();
        }
        r := MapStep(x, ReplyValue);
        if parts0 == [] && r.Pending? {
          if stack != [] {
            ReplyCall(Opts(), d, stack, HeldBytes(), chunk, count, h0, c0);
          } else {
            IdleCall(Opts(), d, HeldBytes(), h0, chunk, c0);
          }
        }
      } else {
        var x := ParseHash();
        r := MapStep(x, ReplyValue);
        if parts0 == [] {
          HashFresh(Opts(), h0, chunk, c0);
          if r.Pending? {
            StartCall(Opts(), HashP, stack, HeldBytes(), chunk, count, h0, c0);
          }
        }
      }
    }

    /** `call(proc)` with nothing to resume, for the routines that produce the parts of a reply. */
    method StartPart(d: Proc) returns (r: Step<Value>)
      requires !(d == ParseP || d == Resp3P || d == StreamedReplyP || d == HashP)
      requires stack == [] && 0 <= count
      requires d == StreamedEntryP ==> At(chunk, count).Some?
      modifies this`count, this`stack, composer`parts
      decreases Measure(), CallRank(d)
      ensures Settled(r, Expected(d), old(count), d == StreamedEntryP)
      ensures r.Ready? ==> Has(r.value, Expected(d)) && Measure() < old(Measure())
      ensures Expected(d) == SizeK || Expected(d) == BlobK ==> !r.Threw?
      ensures r.Pending? && !Silent(d) ==> stack != []
      ensures r.Pending? && stack == [] ==>
                d == StreamedEntryP && count == old(count) && composer.parts == old(composer.parts) &&
                At(chunk, old(count)) == Some(Dot)
      ensures d == StreamedEntryP && At(chunk, old(count)) == Some(Dot) ==>
                r == Pending && count == old(count) && stack == [] && composer.parts == old(composer.parts)
      ensures r.Ready? && r.value.ASize? ==> count >= old(count) + 2
      ensures r.Ready? && r.value.ABlob? && !r.value.blob.Composed? ==> count >= old(count) + 2
      ensures CalledAs(r, d, [], old(count), old(composer.parts))
    {
      if d == LineP || d == AsciiLineP {
        r := StartLine(d);
      } else if d == SizeP {
        r := StartSize(d);
      } else if d == BlobP {
        r := StartBlob(d);
      } else if d == ChunkP {
        r := StartChunk(d);
      } else {
        r := StartEntry(d);
      }
    }

    /** `call(proc)` with nothing to resume, for a line. */
    method StartLine(d: Proc) returns (r: Step<Value>)
      requires d == LineP || d == AsciiLineP
      requires stack == [] && 0 <= count
      modifies this`count, this`stack, composer`parts
      decreases Measure(), CallRank(d) - 1
      ensures Settled(r, Expected(d), old(count), false)
      ensures r.Ready? ==> Has(r.value, Expected(d)) && Measure() < old(Measure())
      ensures Expected(d) == SizeK || Expected(d) == BlobK ==> !r.Threw?
      ensures r.Pending? ==> stack != []
      ensures r.Ready? && r.value.ASize? ==> count >= old(count) + 2
      ensures r.Ready? && r.value.ABlob? && !r.value.blob.Composed? ==> count >= old(count) + 2
      ensures CalledAs(r, d, [], old(count), old(composer.parts))
    {
      ghost var h0, c0, parts0 := HeldBytes(), count, composer.parts;
      if d == LineP {
          var x := ParseLine();
          r := MapStep(x, TextValue);
          if r.Pending? {
            StartCall(Opts(), LineP, stack, HeldBytes(), chunk, count, h0, c0);
          }
      } else {
          var x := ParseAsciiLineBytes("");
          r := MapStep(x, TextValue);
          if r.Pending? {
            StartCall(Opts(), AsciiLineP, stack, HeldBytes(), chunk, count, h0, c0);
          }
      }
    }

    /** `call(proc)` with nothing to resume, for a size. */
    method StartSize(d: Proc) returns (r: Step<Value>)
      requires d == SizeP
      requires stack == [] && 0 <= count
      modifies this`count, this`stack, composer`parts
      decreases Measure(), CallRank(d) - 1
      ensures Settled(r, Expected(d), old(count), false)
      ensures r.Ready? ==> Has(r.value, Expected(d)) && Measure() < old(Measure())
      ensures Expected(d) == SizeK || Expected(d) == BlobK ==> !r.Threw?
      ensures r.Pending? ==> stack != []
      ensures r.Ready? && r.value.ASize? ==> count >= old(count) + 2
      ensures r.Ready? && r.value.ABlob? && !r.value.blob.Composed? ==> count >= old(count) + 2
      ensures CalledAs(r, d, [], old(count), old(composer.parts))
    {
      ghost var h0, c0, parts0 := HeldBytes(), count, composer.parts;
      var x := ParseSize();
      r := MapStep(x, SizeValue);
      if r.Pending? {
        StartCall(Opts(), SizeP, stack, HeldBytes(), chunk, count, h0, c0);
      }
    }

    /** `call(proc)` with nothing to resume, for a blob. */
    method StartBlob(d: Proc) returns (r: Step<Value>)
      requires d == BlobP
      requires stack == [] && 0 <= count
      modifies this`count, this`stack, composer`parts
      decreases Measure(), CallRank(d) - 1
      ensures Settled(r, Expected(d), old(count), false)
      ensures r.Ready? ==> Has(r.value, Expected(d)) && Measure() < old(Measure())
      ensures Expected(d) == SizeK || Expected(d) == BlobK ==> !r.Threw?
      ensures r.Pending? ==> stack != []
      ensures r.Ready? && r.value.ASize? ==> count >= old(count) + 2
      ensures r.Ready? && r.value.ABlob? && !r.value.blob.Composed? ==> count >= old(count) + 2
      ensures CalledAs(r, d, [], old(count), old(composer.parts))
    {
      ghost var h0, c0 := HeldBytes(), count;
      var x := CaptureBlob();
      r := MapStep(x, BlobValue);
      BlobFresh(Opts(), h0, chunk, c0);
      if r.Pending? {
        StartCall(Opts(), BlobP, stack, HeldBytes(), chunk, count, h0, c0);
      }
    }

    /** `call(proc)` with nothing to resume, for one fragment of a streamed blob. */
    method StartChunk(d: Proc) returns (r: Step<Value>)
      requires d == ChunkP
      requires stack == [] && 0 <= count
      modifies this`count, this`stack, composer`parts
      decreases Measure(), CallRank(d) - 1
      ensures Settled(r, Expected(d), old(count), false)
      ensures r.Ready? ==> Has(r.value, Expected(d)) && Measure() < old(Measure())
      ensures Expected(d) == SizeK || Expected(d) == BlobK ==> !r.Threw?
      ensures r.Pending? ==> stack != []
      ensures r.Ready? && r.value.ASize? ==> count >= old(count) + 2
      ensures r.Ready? && r.value.ABlob? && !r.value.blob.Composed? ==> count >= old(count) + 2
      ensures CalledAs(r, d, [], old(count), old(composer.parts))
    {
      ghost var h0, c0 := HeldBytes(), count;
      var x := CaptureChunk();
      r := MapStep(x, BlobValue);
      if r.Pending? {
        ChunkCall(Opts(), stack, HeldBytes(), chunk, count, h0, c0);
      }
    }

    /** `call(proc)` with nothing to resume, for a map entry. */
    method StartEntry(d: Proc) returns (r: Step<Value>)
      requires d == EntryP || d == StreamedEntryP
      requires stack == [] && 0 <= count
      requires d == StreamedEntryP ==> At(chunk, count).Some?
      modifies this`count, this`stack, composer`parts
      decreases Measure(), CallRank(d) - 1
      ensures Settled(r, Expected(d), old(count), d == StreamedEntryP)
      ensures r.Ready? ==> Has(r.value, Expected(d)) && Measure() < old(Measure())
      ensures Expected(d) == SizeK || Expected(d) == BlobK ==> !r.Threw?
      ensures r.Pending? && !Silent(d) ==> stack != []
      ensures r.Pending? && stack == [] ==>
                d == StreamedEntryP && count == old(count) && composer.parts == old(composer.parts) &&
                At(chunk, old(count)) == Some(Dot)
      ensures d == StreamedEntryP && At(chunk, old(count)) == Some(Dot) ==>
                r == Pending && count == old(count) && stack == [] && composer.parts == old(composer.parts)
      ensures r.Ready? && r.value.ASize? ==> count >= old(count) + 2
      ensures r.Ready? && r.value.ABlob? && !r.value.blob.Composed? ==> count >= old(count) + 2
      ensures CalledAs(r, d, [], old(count), old(composer.parts))
    {
      ghost var h0, c0, parts0 := HeldBytes(), count, composer.parts;
      if d == EntryP {
          var x := ParseEntry();
          r := MapStep(x, EntryValue);
          if parts0 == [] && r.Pending? {
            StartCall(Opts(), EntryP, stack, HeldBytes(), chunk, count, h0, c0);
          }
      } else {
          var x := ParseStreamedEntry();
          r := MapStep(x, EntryValue);
          if parts0 == [] && r.Pending? {
            if stack != [] {
              StartCall(Opts(), EntryP, stack, HeldBytes(), chunk, count, h0, c0);
              StreamedEntryCall(Opts(), stack, HeldBytes(), chunk, count, h0, c0);
            } else {
              IdleCall(Opts(), StreamedEntryP, HeldBytes(), h0, chunk, c0);
            }
          }
      }
    }

    /** A suspended routine, resumed with its saved locals. */
    method Resume(f: Frame) returns (r: Step<Value>)
      requires FrameOk(f) && ChainBelow(stack, Callee(f)) && (stack == [] ==> Callee(f).None? || Bare(f))
      requires 0 <= count
      modifies this`count, this`stack, composer`parts
      decreases Measure(), 40
      ensures Settled(r, Produces(f), old(count), false)
      ensures r.Ready? ==> Has(r.value, Produces(f))
      ensures Produces(f) == SizeK || Produces(f) == BlobK ==> !r.Threw?
      ensures r.Pending? ==> stack != []
      ensures r.Ready? && r.value.ASize? ==> count >= old(count) + 2
      ensures r.Ready? && r.value.ABlob? && !r.value.blob.Composed? ==> count >= old(count) + 2
      ensures old(count) >= |chunk| ==> Idle(r, old(count), old(stack), old(composer.parts), [f])
      ensures ResumedAs(r, f, old(stack), old(count), old(composer.parts))
    {
      if f.IntF? || f.BooleanF? || f.DecimalsF? || f.BigDecimalsF? {
        r := ResumeNumber(f);
      } else if f.FailureF? || f.DoubleF? || f.BigNumberF? || f.UnannotatedF? {
        r := ResumeText(f);
      } else if f.BulkF? || f.BulkFailureF? || f.VerbatimF? {
        r := ResumeBulk(f);
      } else if f.AggregateF? || f.HashF? || f.AttributesF? || f.WithAttributesF? {
        r := ResumeAggregate(f);
      } else if f.ExprListF? || f.StreamedListF? || f.EntryListF? || f.StreamedEntriesF? {
        r := ResumeList(f);
      } else if f.SizeF? || f.Uint32F? {
        r := ResumeSize(f);
      } else if f.LineF? || f.AsciiLineF? {
        r := ResumeLine(f);
      } else {
        r := ResumeBlob(f);
      }
    }

    /** `Resume` for a number or a boolean. */
    method ResumeNumber(f: Frame) returns (r: Step<Value>)
      requires f.IntF? || f.BooleanF? || f.DecimalsF? || f.BigDecimalsF?
      requires FrameOk(f) && ChainBelow(stack, Callee(f)) && (stack == [] ==> Callee(f).None? || Bare(f))
      requires 0 <= count
      modifies this`count, this`stack, composer`parts
      decreases Measure(), 38
      ensures Settled(r, Produces(f), old(count), false)
      ensures r.Ready? ==> Has(r.value, Produces(f))
      ensures r.Pending? ==> stack != []
      ensures old(count) >= |chunk| ==> Idle(r, old(count), old(stack), old(composer.parts), [f])
      ensures ResumedAs(r, f, old(stack), old(count), old(composer.parts))
    {
      CleanPush(stack, f, composer.parts);
      match f
      case IntF =>
        var x := ParseInt();
        r := MapStep(x, ReplyValue);
      case BooleanF =>
        var x := ParseBoolean();
        r := MapStep(x, ReplyValue);
      case DecimalsF(i, sign) =>
        var x := ParseDecimals(sign, i);
        r := MapStep(x, ReplyValue);
      case BigDecimalsF(i, sign) =>
        var x := ParseBigIntDecimals(sign, i);
        r := MapStep(x, ReplyValue);
    }

    /** `Resume` for a reply read from one line. */
    method ResumeText(f: Frame) returns (r: Step<Value>)
      requires f.FailureF? || f.DoubleF? || f.BigNumberF? || f.UnannotatedF?
      requires FrameOk(f) && ChainBelow(stack, Callee(f)) && (stack == [] ==> Callee(f).None? || Bare(f))
      requires 0 <= count
      modifies this`count, this`stack, composer`parts
      decreases Measure(), 38
      ensures Settled(r, Produces(f), old(count), false)
      ensures r.Ready? ==> Has(r.value, Produces(f))
      ensures r.Pending? ==> stack != []
      ensures old(count) >= |chunk| ==> Idle(r, old(count), old(stack), old(composer.parts), [f])
      ensures ResumedAs(r, f, old(stack), old(count), old(composer.parts))
    {
      CleanPush(stack, f, composer.parts);
      match f
      case FailureF =>
        var x := ParseFailure();
        r := MapStep(x, ReplyValue);
      case DoubleF =>
        var x := ParseDouble();
        r := MapStep(x, ReplyValue);
      case BigNumberF =>
        var x := ParseBigNumbers();
        r := MapStep(x, ReplyValue);
      case UnannotatedF =>
        var x := ParseUnannotated();
        r := MapStep(x, ReplyValue);
    }

    /** `Resume` for a reply read from a blob. */
    method ResumeBulk(f: Frame) returns (r: Step<Value>)
      requires f.BulkF? || f.BulkFailureF? || f.VerbatimF?
      requires FrameOk(f) && ChainBelow(stack, Callee(f)) && (stack == [] ==> Callee(f).None? || Bare(f))
      requires 0 <= count
      modifies this`count, this`stack, composer`parts
      decreases Measure(), 38
      ensures Settled(r, Produces(f), old(count), false)
      ensures r.Ready? ==> Has(r.value, Produces(f))
      ensures r.Pending? ==> stack != []
      ensures old(count) >= |chunk| ==> Idle(r, old(count), old(stack), old(composer.parts), [f])
      ensures ResumedAs(r, f, old(stack), old(count), old(composer.parts))
    {
      CleanPush(stack, f, composer.parts);
      match f
      case BulkF =>
        var x := ParseBulk();
        r := MapStep(x, ReplyValue);
      case BulkFailureF =>
        var x := ParseBulkFailure();
        r := MapStep(x, ReplyValue);
      case VerbatimF =>
        var x := ParseFormatedBulk();
        r := MapStep(x, ReplyValue);
    }

    /** `Resume` for a list, a map or an annotated reply. */
    method ResumeAggregate(f: Frame) returns (r: Step<Value>)
      requires f.AggregateF? || f.HashF? || f.AttributesF? || f.WithAttributesF?
      requires FrameOk(f) && ChainBelow(stack, Callee(f)) && (stack == [] ==> Callee(f).None? || Bare(f))
      requires 0 <= count
      modifies this`count, this`stack, composer`parts
      decreases Measure(), 38
      ensures Settled(r, Produces(f), old(count), false)
      ensures r.Ready? ==> Has(r.value, Produces(f))
      ensures r.Pending? ==> stack != []
      ensures old(count) >= |chunk| ==> Idle(r, old(count), old(stack), old(composer.parts), [f])
      ensures ResumedAs(r, f, old(stack), old(count), old(composer.parts))
    {
      CleanPush(stack, f, composer.parts);
      match f
      case AggregateF(shape) =>
        var x := ParseAggregate(shape);
        r := MapStep(x, ReplyValue);
      case HashF =>
        var x := ParseHash();
        r := MapStep(x, ReplyValue);
      case AttributesF =>
        var x := ParseAttributes();
        r := MapStep(x, ReplyValue);
      case WithAttributesF(attrs) =>
        var x := ParseWithAttributes(attrs);
        r := MapStep(x, ReplyValue);
    }

    /** `Resume` for a list or a map being filled. */
    method ResumeList(f: Frame) returns (r: Step<Value>)
      requires f.ExprListF? || f.StreamedListF? || f.EntryListF? || f.StreamedEntriesF?
      requires FrameOk(f) && ChainBelow(stack, Callee(f)) && (stack == [] ==> Callee(f).None? || Bare(f))
      requires 0 <= count
      modifies this`count, this`stack, composer`parts
      decreases Measure(), 38
      ensures Settled(r, Produces(f), old(count), false)
      ensures r.Ready? ==> Has(r.value, Produces(f))
      ensures r.Pending? ==> stack != []
      ensures old(count) >= |chunk| ==> Idle(r, old(count), old(stack), old(composer.parts), [f])
      ensures ResumedAs(r, f, old(stack), old(count), old(composer.parts))
    {
      if f.ExprListF? || f.StreamedListF? {
        r := ResumeItems(f);
      } else {
        r := ResumeMapping(f);
      }
    }

    /** `Resume` for a list being filled. */
    method ResumeItems(f: Frame) returns (r: Step<Value>)
      requires f.ExprListF? || f.StreamedListF?
      requires FrameOk(f) && ChainBelow(stack, Callee(f)) && (stack == [] ==> Callee(f).None? || Bare(f))
      requires 0 <= count
      modifies this`count, this`stack, composer`parts
      decreases Measure(), 37
      ensures Settled(r, Produces(f), old(count), false)
      ensures r.Ready? ==> Has(r.value, Produces(f))
      ensures r.Pending? ==> stack != []
      ensures old(count) >= |chunk| ==> Idle(r, old(count), old(stack), old(composer.parts), [f])
      ensures ResumedAs(r, f, old(stack), old(count), old(composer.parts))
    {
      CleanPush(stack, f, composer.parts);
      match f
      case ExprListF(shape, items, s) =>
        var x := ParseExpressionList(shape, items, s);
        if shape == EntryS {
          match x
          case Ready(v) => r := Ready(AnEntry(Entry(v[0], v[1])));
          case Pending => r := Pending;
          case Threw(e) => r := Threw(e);
        } else {
          r := MapStep(x, (v: seq<Reply>) => AReply(Wrap(shape, v)));
        }
      case StreamedListF(shape, items) =>
        var x := ParseStreamedExpressionList(shape, items);
        r := MapStep(x, (v: seq<Reply>) => AReply(Wrap(shape, v)));
    }

    /** `Resume` for a map being filled. */
    method ResumeMapping(f: Frame) returns (r: Step<Value>)
      requires f.EntryListF? || f.StreamedEntriesF?
      requires FrameOk(f) && ChainBelow(stack, Callee(f)) && (stack == [] ==> Callee(f).None? || Bare(f))
      requires 0 <= count
      modifies this`count, this`stack, composer`parts
      decreases Measure(), 37
      ensures Settled(r, Produces(f), old(count), false)
      ensures r.Ready? ==> Has(r.value, Produces(f))
      ensures r.Pending? ==> stack != []
      ensures old(count) >= |chunk| ==> Idle(r, old(count), old(stack), old(composer.parts), [f])
      ensures ResumedAs(r, f, old(stack), old(count), old(composer.parts))
    {
      CleanPush(stack, f, composer.parts);
      match f
      case EntryListF(entries, s) =>
        var x := ParseEntryList(entries, s);
        r := MapStep(x, MapValue);
      case StreamedEntriesF(entries) =>
        var x := ParseStreamedEntryList(entries);
        r := MapStep(x, MapValue);
    }

    /** `Resume` for a size. */
    method ResumeSize(f: Frame) returns (r: Step<Value>)
      requires f.SizeF? || f.Uint32F?
      requires FrameOk(f) && ChainBelow(stack, Callee(f)) && (stack == [] ==> Callee(f).None? || Bare(f))
      requires 0 <= count
      modifies this`count, this`stack, composer`parts
      decreases Measure(), 38
      ensures Settled(r, Produces(f), old(count), false)
      ensures r.Ready? ==> Has(r.value, Produces(f))
      ensures Produces(f) == SizeK || Produces(f) == BlobK ==> !r.Threw?
      ensures r.Pending? ==> stack != []
      ensures r.Ready? && r.value.ASize? ==> count >= old(count) + 2
      ensures r.Ready? && r.value.ABlob? && !r.value.blob.Composed? ==> count >= old(count) + 2
      ensures old(count) >= |chunk| ==> Idle(r, old(count), old(stack), old(composer.parts), [f])
      ensures ResumedAs(r, f, old(stack), old(count), old(composer.parts))
    {
      ComposingPush(stack, f);
      match f
      case SizeF =>
        var x := ParseSize();
        r := MapStep(x, SizeValue);
      case Uint32F(acc) =>
        var x := ParseUint32(acc);
        r := MapStep(x, Uint32Value);
    }

    /** `Resume` for a line. */
    method ResumeLine(f: Frame) returns (r: Step<Value>)
      requires f.LineF? || f.AsciiLineF?
      requires FrameOk(f) && ChainBelow(stack, Callee(f)) && (stack == [] ==> Callee(f).None? || Bare(f))
      requires 0 <= count
      modifies this`count, this`stack, composer`parts
      decreases Measure(), 38
      ensures Settled(r, Produces(f), old(count), false)
      ensures r.Ready? ==> Has(r.value, Produces(f))
      ensures Produces(f) == SizeK || Produces(f) == BlobK ==> !r.Threw?
      ensures r.Pending? ==> stack != []
      ensures r.Ready? && r.value.ASize? ==> count >= old(count) + 2
      ensures r.Ready? && r.value.ABlob? && !r.value.blob.Composed? ==> count >= old(count) + 2
      ensures old(count) >= |chunk| ==> Idle(r, old(count), old(stack), old(composer.parts), [f])
      ensures ResumedAs(r, f, old(stack), old(count), old(composer.parts))
    {
      ComposingPush(stack, f);
      match f
      case LineF =>
        var x := ParseLine();
        r := MapStep(x, TextValue);
      case AsciiLineF(text) =>
        var x := ParseAsciiLineBytes(text);
        r := MapStep(x, TextValue);
    }

    /** `Resume` for a blob. */
    method ResumeBlob(f: Frame) returns (r: Step<Value>)
      requires f.BlobF? || f.UncomposedBlobF? || f.ChunkedBlobF?
      requires FrameOk(f) && ChainBelow(stack, Callee(f)) && (stack == [] ==> Callee(f).None? || Bare(f))
      requires 0 <= count
      modifies this`count, this`stack, composer`parts
      decreases Measure(), 38
      ensures Settled(r, Produces(f), old(count), false)
      ensures r.Ready? ==> Has(r.value, Produces(f))
      ensures Produces(f) == SizeK || Produces(f) == BlobK ==> !r.Threw?
      ensures r.Pending? ==> stack != []
      ensures r.Ready? && r.value.ASize? ==> count >= old(count) + 2
      ensures r.Ready? && r.value.ABlob? && !r.value.blob.Composed? ==> count >= old(count) + 2
      ensures old(count) >= |chunk| ==> Idle(r, old(count), old(stack), old(composer.parts), [f])
      ensures ResumedAs(r, f, old(stack), old(count), old(composer.parts))
    {
      match f
      case BlobF =>
        ComposingPush(stack, BlobF);
        ChainNotComposing(stack, SizeK);
        var x := CaptureBlob();
        r := MapStep(x, BlobValue);
      case UncomposedBlobF(rest) =>
        var x := CaptureUncomposedBlob(rest);
        r := MapStep(x, BlobValue);
      case ChunkedBlobF =>
        var x := CaptureChunkedBlob();
        r := MapStep(x, BlobValue);
    }

    /**
     * `parseResp2Unmapped` (`v3` false) and `parseResp3Unmapped` (`v3` true):
     * the tag byte picks the routine; no byte at all suspends with nothing
     * pushed, and any other byte raises `SyntaxError`.
     */
    method Dispatch(v3: bool) returns (r: Step<Reply>)
      requires stack == [] && 0 <= count
      modifies this`count, this`stack, composer`parts
      decreases Measure(), 4
      ensures Settled(r, ReplyK, old(count), false)
      ensures r.Ready? ==> Measure() < old(Measure())
      ensures At(chunk, old(count)).None? ==> r == Pending && count == old(count) && stack == [] &&
                                              composer.parts == old(composer.parts)
      ensures At(chunk, old(count)).Some? && r.Pending? ==> stack != []
      ensures At(chunk, old(count)).Some? && !IsTag(At(chunk, old(count)).value, v3) ==>
                r == Threw(SyntaxError) && count == old(count) + 1
      ensures old(composer.parts) == [] ==>
                Agrees(r, RefReply(Opts(), chunk, old(count), v3)) && Tidy(r, true, false) &&
                (r.Pending? && stack != [] ==> ReplyFrom(Opts(), stack, HeldBytes(), chunk, count, old(count), v3))
    {
      var x := At(chunk, count);
      if x.None? {
        return Pending;
      }
      ghost var o := RefReply(Opts(), chunk, count, v3);
      count := count + 1;
      var tag := x.value;
      if tag in Resp2Tags {
        assert o == RefResp2(Opts(), chunk, count, tag);
        r := RouteResp2(tag);
      } else if v3 && tag in Resp3Tags {
        assert o == RefResp3(Opts(), chunk, count, tag);
        r := RouteResp3(tag);
      } else {
        r := Threw(SyntaxError);
      }
      if old(composer.parts) == [] && r.Pending? {
        ReplySuspends(Opts(), stack, HeldBytes(), chunk, count, old(count), v3);
      }
    }

    /** The routines of the tags that RESP2 and RESP3 share. */
    method RouteResp2(tag: Byte) returns (r: Step<Reply>)
      requires tag in Resp2Tags && stack == [] && 0 <= count
      modifies this`count, this`stack, composer`parts
      decreases Measure(), 18
      ensures Settled(r, ReplyK, old(count), false) && (r.Pending? ==> stack != [])
      ensures old(composer.parts) == [] ==>
                Agrees(r, RefResp2(Opts(), chunk, old(count), tag)) && Tidy(r, true, false) &&
                (r.Pending? ==> Resp2From(Opts(), stack, HeldBytes(), chunk, count, old(count), tag))
    {
      ghost var h0, c0, parts0 := HeldBytes(), count, composer.parts;
      assert parts0 == [] ==> h0 == [];
      if tag == 0x2B {
        var t := ParseLine();
        r := MapStep(t, (v: string) => Str(v));
      } else if tag == 0x2D {
        r := ParseFailure();
        FailureFresh(Opts(), chunk, c0);
      } else if tag == 0x3A {
        r := ParseInt();
      } else if tag == 0x24 {
        r := ParseBulk();
        BulkFresh(Opts(), chunk, c0);
      } else {
        r := ParseAggregate(ListS);
        AggregateFresh(Opts(), ListS, h0, chunk, c0);
      }
      if parts0 == [] && r.Pending? {
        Resp2Suspends(Opts(), stack, HeldBytes(), chunk, count, c0, tag);
      }
    }

    /** The routines of the tags only RESP3 has. */
    method RouteResp3(tag: Byte) returns (r: Step<Reply>)
      requires tag in Resp3Tags && stack == [] && 0 <= count
      modifies this`count, this`stack, composer`parts
      decreases Measure(), 19
      ensures Settled(r, ReplyK, old(count), false) && (r.Pending? ==> stack != [])
      ensures old(composer.parts) == [] ==>
                Agrees(r, RefResp3(Opts(), chunk, old(count), tag)) && Tidy(r, true, false) &&
                (r.Pending? ==> Resp3From(Opts(), stack, HeldBytes(), chunk, count, old(count), tag))
    {
      if tag in {0x7E, 0x25, 0x3E, 0x7C} {
        r := RouteResp3Aggregate(tag);
      } else {
        r := RouteResp3Scalar(tag);
      }
    }

    /** The routines of the RESP3 tags of sets, maps, pushes and attributes. */
    method RouteResp3Aggregate(tag: Byte) returns (r: Step<Reply>)
      requires tag in {0x7E, 0x25, 0x3E, 0x7C} && stack == [] && 0 <= count
      modifies this`count, this`stack, composer`parts
      decreases Measure(), 18
      ensures Settled(r, ReplyK, old(count), false) && (r.Pending? ==> stack != [])
      ensures old(composer.parts) == [] ==>
                Agrees(r, RefResp3(Opts(), chunk, old(count), tag)) && Tidy(r, true, false) &&
                (r.Pending? ==> Resp3From(Opts(), stack, HeldBytes(), chunk, count, old(count), tag))
    {
      ghost var h0, c0, parts0 := HeldBytes(), count, composer.parts;
      assert parts0 == [] ==> h0 == [];
      if tag == 0x7E {
        r := ParseAggregate(SetS);
        AggregateFresh(Opts(), SetS, h0, chunk, c0);
      } else if tag == 0x25 {
        r := ParseHash();
        HashFresh(Opts(), h0, chunk, c0);
      } else if tag == 0x3E {
        r := ParseAggregate(PushS);
        AggregateFresh(Opts(), PushS, h0, chunk, c0);
      } else {
        r := ParseAttributes();
        AttributesFresh(Opts(), h0, chunk, c0);
      }
      if parts0 == [] && r.Pending? {
        Resp3Suspends(Opts(), stack, HeldBytes(), chunk, count, c0, tag);
      }
    }

    /** The routines of the other RESP3 tags. */
    method RouteResp3Scalar(tag: Byte) returns (r: Step<Reply>)
      requires tag in Resp3Tags - {0x7E, 0x25, 0x3E, 0x7C} && stack == [] && 0 <= count
      modifies this`count, this`stack, composer`parts
      decreases Measure(), 18
      ensures Settled(r, ReplyK, old(count), false) && (r.Pending? ==> stack != [])
      ensures old(composer.parts) == [] ==>
                Agrees(r, RefResp3(Opts(), chunk, old(count), tag)) && Tidy(r, true, false) &&
                (r.Pending? ==> Resp3From(Opts(), stack, HeldBytes(), chunk, count, old(count), tag))
    {
      ghost var h0, c0, parts0 := HeldBytes(), count, composer.parts;
      assert parts0 == [] ==> h0 == [];
      if tag == 0x5F {
        r := ParseNil();
      } else if tag == 0x23 {
        r := ParseBoolean();
      } else if tag == 0x2C {
        r := ParseDouble();
        DoubleFresh(Opts(), h0, chunk, c0);
      } else if tag == 0x28 {
        r := ParseBigNumbers();
        BigNumberFresh(Opts(), h0, chunk, c0);
      } else if tag == 0x21 {
        r := ParseBulkFailure();
        BulkFailureFresh(Opts(), chunk, c0);
      } else {
        r := ParseFormatedBulk();
        VerbatimFresh(Opts(), chunk, c0);
      }
      if parts0 == [] && r.Pending? && tag != 0x5F {
        Resp3Suspends(Opts(), stack, HeldBytes(), chunk, count, c0, tag);
      }
    }

    /** `parseStreamedReply`: the next reply, unless the byte under the cursor is the `.` that ends the stream. */
    method ParseStreamedReply() returns (r: Step<Reply>)
      requires stack == [] && 0 <= count
      modifies this`count, this`stack, composer`parts
      decreases Measure(), 8
      ensures Settled(r, ReplyK, old(count), true)
      ensures r.Ready? ==> Measure() < old(Measure())
      ensures At(chunk, old(count)) == Some(Dot) || At(chunk, old(count)).None? ==>
                r == Pending && count == old(count) && stack == [] && composer.parts == old(composer.parts)
      ensures At(chunk, old(count)).Some? && r.Pending? ==> stack != [] || At(chunk, old(count)) == Some(Dot)
      ensures At(chunk, old(count)) != Some(Dot) ==>
                (r.Pending? ==> Starved()) &&
                (old(composer.parts) == [] ==>
                   Agrees(r, RefReply(Opts(), chunk, old(count), resp3)) && Tidy(r, true, false) &&
                   (r.Pending? && stack != [] ==> ReplyFrom(Opts(), stack, HeldBytes(), chunk, count, old(count), resp3)))
    {
      if At(chunk, count) != Some(Dot) {
        r := Dispatch(resp3);
      } else {
        r := Pending;
      }
    }

    /**
     * `parseResp3Unmapped` for the reply an attribute map of `null`
     * annotates: the reply as it is, or, with no byte for its tag, the
     * promise to read it once one arrives.
     */
    method ParseUnannotated() returns (r: Step<Reply>)
      requires stack == [] && 0 <= count
      modifies this`count, this`stack, composer`parts
      decreases Measure(), 6
      ensures Settled(r, ReplyK, old(count), false) && (r.Pending? ==> stack != [])
      ensures old(composer.parts) == [] ==>
                Agrees(r, RefReply(Opts(), chunk, old(count), true)) &&
                (r.Pending? ==> Resumes(UnannotatedF, [], [], old(count)))
      ensures Tidy(r, old(composer.parts) == [], false)
      ensures old(count) >= |chunk| ==> Idle(r, old(count), old(stack), old(composer.parts), [UnannotatedF])
    {
      if At(chunk, count).None? {
        LeafChain(UnannotatedF, ReplyK);
        PushIdle(Opts(), UnannotatedF, stack, HeldBytes(), chunk, count);
        stack := stack + [UnannotatedF];
        return Pending;
      }
      r := Dispatch(true);
      if old(composer.parts) == [] && r.Pending? {
        UnannotatedSuspends(Opts(), stack, HeldBytes(), chunk, count, [], old(count));
      }
    }

    /** `parseFailure`: the line after `-` as a `Failure`. */
    method ParseFailure() returns (r: Step<Reply>)
      requires Chain(stack, TextK) && 0 <= count
      modifies this`count, this`stack, composer`parts
      decreases Measure(), 8
      ensures Settled(r, ReplyK, old(count), false) && (r.Pending? ==> stack != [])
      ensures r.Ready? ==> r.value.Failure?
      ensures Agrees(r, AfterFailure(View(CallK(Opts(), LineP, old(stack), old(HeldBytes()), chunk, old(count)))))
      ensures r.Pending? ==> Resumes(FailureF, old(stack), old(HeldBytes()), old(count))
      ensures Tidy(r, Clean(old(stack), old(composer.parts)), false)
      ensures old(count) >= |chunk| && old(stack) != [] ==> Idle(r, old(count), old(stack), old(composer.parts), [FailureF])
    {
      ghost var stk0, h0, c0 := stack, HeldBytes(), count;
      var x := Call(LineP);
      match x
      case Ready(v) => r := Ready(Failure(v.text));
      case Threw(e) => r := Threw(e);
      case Pending =>
        ChainPush(stack, FailureF, ReplyK);
        PushResumes(Opts(), FailureF, LineP, stack, HeldBytes(), chunk, count, stk0, h0, c0);
        CleanPush(stack, FailureF, composer.parts);
        stack := stack + [FailureF];
        r := Pending;
    }

    /** `parseDouble`: `inf` and `-inf` are the infinities, any other line a number. */
    method ParseDouble() returns (r: Step<Reply>)
      requires Chain(stack, AsciiTextK) && 0 <= count
      modifies this`count, this`stack, composer`parts
      decreases Measure(), 8
      ensures Settled(r, ReplyK, old(count), false) && (r.Pending? ==> stack != [])
      ensures r.Ready? ==> r.value.Double? || r.value.Infinity?
      ensures composer.parts == old(composer.parts)
      ensures Agrees(r, AfterDouble(View(CallK(Opts(), AsciiLineP, old(stack), old(HeldBytes()), chunk, old(count)))))
      ensures r.Pending? ==> Resumes(DoubleF, old(stack), old(HeldBytes()), old(count))
      ensures Tidy(r, Clean(old(stack), old(composer.parts)), false)
      ensures old(count) >= |chunk| && old(stack) != [] ==> Idle(r, old(count), old(stack), old(composer.parts), [DoubleF])
    {
      ghost var stk0, h0, c0 := stack, HeldBytes(), count;
      ChainNotComposing(stack, AsciiTextK);
      var x := Call(AsciiLineP);
      match x
      case Ready(v) =>
        if v.text == "inf" {
          r := Ready(Infinity(false));
        } else if v.text == "-inf" {
          r := Ready(Infinity(true));
        } else {
          r := Ready(Double(v.text));
        }
      case Threw(e) => r := Threw(e);
      case Pending =>
        ChainPush(stack, DoubleF, ReplyK);
        PushResumes(Opts(), DoubleF, AsciiLineP, stack, HeldBytes(), chunk, count, stk0, h0, c0);
        CleanPush(stack, DoubleF, composer.parts);
        stack := stack + [DoubleF];
        r := Pending;
    }

    /** `parseBigNumbers`: the line after `(` as a big number. */
    method ParseBigNumbers() returns (r: Step<Reply>)
      requires Chain(stack, AsciiTextK) && 0 <= count
      modifies this`count, this`stack, composer`parts
      decreases Measure(), 8
      ensures Settled(r, ReplyK, old(count), false) && (r.Pending? ==> stack != [])
      ensures r.Ready? ==> r.value.BigNumber?
      ensures composer.parts == old(composer.parts)
      ensures Agrees(r, AfterBigNumber(View(CallK(Opts(), AsciiLineP, old(stack), old(HeldBytes()), chunk, old(count)))))
      ensures r.Pending? ==> Resumes(BigNumberF, old(stack), old(HeldBytes()), old(count))
      ensures Tidy(r, Clean(old(stack), old(composer.parts)), false)
      ensures old(count) >= |chunk| && old(stack) != [] ==> Idle(r, old(count), old(stack), old(composer.parts), [BigNumberF])
    {
      ghost var stk0, h0, c0 := stack, HeldBytes(), count;
      ChainNotComposing(stack, AsciiTextK);
      var x := Call(AsciiLineP);
      match x
      case Ready(v) => r := Ready(BigNumber(v.text));
      case Threw(e) => r := Threw(e);
      case Pending =>
        ChainPush(stack, BigNumberF, ReplyK);
        PushResumes(Opts(), BigNumberF, AsciiLineP, stack, HeldBytes(), chunk, count, stk0, h0, c0);
        CleanPush(stack, BigNumberF, composer.parts);
        stack := stack + [BigNumberF];
        r := Pending;
    }

    /**
     * `parseBulk`: the payload, decoded to a string or kept as `Bulk` bytes
     * as the options say; `''` for size 0 and `null` for a negative size.
     */
    method ParseBulk() returns (r: Step<Reply>)
      requires Chain(stack, BlobK) && 0 <= count
      modifies this`count, this`stack, composer`parts
      decreases Measure(), 16
      ensures Settled(r, ReplyK, old(count), false) && (r.Pending? ==> stack != [])
      ensures r.Ready? ==> (if decodeBulk then r.value.Str? else r.value.Bulk? || r.value == Str("")) || r.value.Null?
      ensures Agrees(r, AfterBulk(Opts(), View(CallK(Opts(), BlobP, old(stack), old(HeldBytes()), chunk, old(count)))))
      ensures r.Pending? ==> Resumes(BulkF, old(stack), old(HeldBytes()), old(count))
      ensures Tidy(r, Clean(old(stack), old(composer.parts)), false)
      ensures old(count) >= |chunk| && old(stack) != [] ==> Idle(r, old(count), old(stack), old(composer.parts), [BulkF])
    {
      ghost var stk0, h0, c0 := stack, HeldBytes(), count;
      var x := Call(BlobP);
      if x.Ready? {
        var v := BulkFrom(x.value.blob);
        r := Ready(v);
      } else {
        ChainPush(stack, BulkF, ReplyK);
        PushResumes(Opts(), BulkF, BlobP, stack, HeldBytes(), chunk, count, stk0, h0, c0);
        CleanPush(stack, BulkF, composer.parts);
        stack := stack + [BulkF];
        r := Pending;
      }
    }

    /** `parseBulkFailure`: the payload after `!` as a `Failure`, empty when there is none. */
    method ParseBulkFailure() returns (r: Step<Reply>)
      requires Chain(stack, BlobK) && 0 <= count
      modifies this`count, this`stack, composer`parts
      decreases Measure(), 16
      ensures Settled(r, ReplyK, old(count), false) && (r.Pending? ==> stack != [])
      ensures r.Ready? ==> r.value.Failure?
      ensures Agrees(r, AfterBulkFailure(Opts(), View(CallK(Opts(), BlobP, old(stack), old(HeldBytes()), chunk, old(count)))))
      ensures r.Pending? ==> Resumes(BulkFailureF, old(stack), old(HeldBytes()), old(count))
      ensures Tidy(r, Clean(old(stack), old(composer.parts)), false)
      ensures old(count) >= |chunk| && old(stack) != [] ==> Idle(r, old(count), old(stack), old(composer.parts), [BulkFailureF])
    {
      ghost var stk0, h0, c0 := stack, HeldBytes(), count;
      var x := Call(BlobP);
      if x.Ready? {
        var v := BulkFailureFrom(x.value.blob);
        r := Ready(v);
      } else {
        ChainPush(stack, BulkFailureF, ReplyK);
        PushResumes(Opts(), BulkFailureF, BlobP, stack, HeldBytes(), chunk, count, stk0, h0, c0);
        CleanPush(stack, BulkFailureF, composer.parts);
        stack := stack + [BulkFailureF];
        r := Pending;
      }
    }

    /**
     * `parseFormatedBulk`: a verbatim payload split into its three-character
     * format and the content after the separator; `''` and `null` pass through.
     */
    method ParseFormatedBulk() returns (r: Step<Reply>)
      requires Chain(stack, BlobK) && 0 <= count
      modifies this`count, this`stack, composer`parts
      decreases Measure(), 16
      ensures Settled(r, ReplyK, old(count), false) && (r.Pending? ==> stack != [])
      ensures r.Ready? ==> r.value.Verbatim? || r.value == Str("") || r.value.Null?
      ensures Agrees(r, AfterVerbatim(View(CallK(Opts(), BlobP, old(stack), old(HeldBytes()), chunk, old(count)))))
      ensures r.Pending? ==> Resumes(VerbatimF, old(stack), old(HeldBytes()), old(count))
      ensures Tidy(r, Clean(old(stack), old(composer.parts)), false)
      ensures old(count) >= |chunk| && old(stack) != [] ==> Idle(r, old(count), old(stack), old(composer.parts), [VerbatimF])
    {
      ghost var stk0, h0, c0 := stack, HeldBytes(), count;
      var x := Call(BlobP);
      if x.Ready? {
        var v := VerbatimFrom(x.value.blob);
        r := Ready(v);
      } else {
        ChainPush(stack, VerbatimF, ReplyK);
        PushResumes(Opts(), VerbatimF, BlobP, stack, HeldBytes(), chunk, count, stk0, h0, c0);
        CleanPush(stack, VerbatimF, composer.parts);
        stack := stack + [VerbatimF];
        r := Pending;
      }
    }

    /** The reply `parseBulk` makes of the payload `captureBlob` left: composed bytes, `''` or `null`. */
    method BulkFrom(blob: Blob) returns (v: Reply)
      modifies composer`parts
      ensures v == BulkReply(Opts(), HeldPayload(blob, old(HeldBytes())))
      ensures composer.parts == if blob == Composed then [] else old(composer.parts)
    {
      if blob == Composed {
        var t := composer.Compose();
        FlattenOne(t);
        if decodeBulk {
          var text := Decode(t, utf8);
          v := Str(text);
        } else {
          v := Bulk(t);
        }
      } else if blob == EmptyBlob {
        v := Str("");
      } else {
        v := Null;
      }
    }

    /** The reply `parseBulkFailure` makes of that payload: its text, empty when there is none. */
    method BulkFailureFrom(blob: Blob) returns (v: Reply)
      modifies composer`parts
      ensures v == BulkFailureReply(Opts(), HeldPayload(blob, old(HeldBytes())))
      ensures composer.parts == if blob == Composed then [] else old(composer.parts)
    {
      if blob == Composed {
        var t := composer.Compose();
        FlattenOne(t);
        var text := Decode(t, utf8);
        v := Failure(text);
      } else {
        v := Failure("");
      }
    }

    /** The reply `parseFormatedBulk` makes of that payload: format and content, `''` or `null`. */
    method VerbatimFrom(blob: Blob) returns (v: Reply)
      modifies composer`parts
      ensures v == VerbatimReply(HeldPayload(blob, old(HeldBytes())))
      ensures composer.parts == if blob == Composed then [] else old(composer.parts)
    {
      if blob == Composed {
        var t := composer.Compose();
        FlattenOne(t);
        v := VerbatimOf(t);
      } else if blob == EmptyBlob {
        v := Str("");
      } else {
        v := Null;
      }
    }

    /**
     * `parseList`, `parseUnordered` and `parsePush`: a size, then that many
     * replies; no element for size 0, `null` for a negative size, and a
     * streamed list for `?`.
     */
    method ParseAggregate(shape: Shape) returns (r: Step<Reply>)
      requires shape != EntryS && Chain(stack, SizeK) && 0 <= count
      modifies this`count, this`stack, composer`parts
      decreases Measure(), 8
      ensures Settled(r, ReplyK, old(count), false) && (r.Pending? ==> stack != [])
      ensures r.Ready? ==> r.value.Null? || ((r.value.List? || r.value.Set? || r.value.Push?) && r.value == Wrap(shape, r.value.items))
      ensures Clean(old(stack), old(composer.parts)) ==>
                Agrees(r, AfterAggregate(Opts(), shape, chunk, View(CallK(Opts(), SizeP, old(stack), old(HeldBytes()), chunk, old(count))))) &&
                (r.Pending? ==> Resumes(AggregateF(shape), old(stack), old(HeldBytes()), old(count)))
      ensures Tidy(r, Clean(old(stack), old(composer.parts)), false)
      ensures old(count) >= |chunk| && old(stack) != [] ==> Idle(r, old(count), old(stack), old(composer.parts), [AggregateF(shape)])
    {
      ghost var stk0, h0, c0, parts0 := stack, HeldBytes(), count, composer.parts;
      ChainNotComposing(stack, SizeK);
      var x := Call(SizeP);
      if x.Ready? {
        r := AggregateOf(shape, x.value.size, stk0, h0, c0, Clean(stk0, parts0));
      } else {
        ChainPush(stack, AggregateF(shape), ReplyK);
        PushResumes(Opts(), AggregateF(shape), SizeP, stack, HeldBytes(), chunk, count, stk0, h0, c0);
        CleanPush(stack, AggregateF(shape), composer.parts);
        stack := stack + [AggregateF(shape)];
        r := Pending;
      }
    }

    /** The elements `parseList` reads once the size is known. */
    method AggregateOf(shape: Shape, size: Size, ghost stk0: seq<Frame>, ghost h0: seq<Byte>, ghost c0: nat, ghost clean: bool)
      returns (r: Step<Reply>)
      requires shape != EntryS && stack == [] && c0 <= count
      requires clean ==> composer.parts == [] && CallK(Opts(), SizeP, stk0, h0, chunk, c0) == Got(Val(ASize(size)), count)
      modifies this`count, this`stack, composer`parts
      decreases Measure(), 17
      ensures Settled(r, ReplyK, c0, false) && (r.Pending? ==> stack != [])
      ensures r.Ready? ==> (r.value.Null? || ((r.value.List? || r.value.Set? || r.value.Push?) && r.value == Wrap(shape, r.value.items))) && Measure() <= old(Measure())
      ensures clean ==>
                Agrees(r, AfterAggregate(Opts(), shape, chunk, View(CallK(Opts(), SizeP, stk0, h0, chunk, c0)))) &&
                (r.Pending? ==> Resumes(AggregateF(shape), stk0, h0, c0))
      ensures Tidy(r, clean, false)
    {
      ghost var k := count;
      match size {
      case Sized(n) =>
        if n >= ArrayLengthLimit {
          r := Threw(RangeError);
        } else if n > 0 {
          r := SlotsOf(shape, n, stk0, h0, c0, clean);
        } else if n == 0 {
          r := Ready(Wrap(shape, []));
        } else {
          r := Ready(Null);
        }
      case Streamed =>
        var l := ParseStreamedExpressionList(shape, []);
        r := MapStep(l, (items: seq<Reply>) => Wrap(shape, items));
        if clean && r.Pending? {
          NextResumes(Opts(), AggregateF(shape), stk0, h0, chunk, c0, Val(ASize(size)), k, stack, HeldBytes(), count);
        }
      }
    }

    /** The `n` slots `AggregateOf` reads for a counted size. */
    method SlotsOf(shape: Shape, n: int, ghost stk0: seq<Frame>, ghost h0: seq<Byte>, ghost c0: nat, ghost clean: bool)
      returns (r: Step<Reply>)
      requires shape != EntryS && stack == [] && c0 <= count && 0 < n < ArrayLengthLimit
      requires clean ==> composer.parts == [] && CallK(Opts(), SizeP, stk0, h0, chunk, c0) == Got(Val(ASize(Sized(n))), count)
      modifies this`count, this`stack, composer`parts
      decreases Measure(), 15
      ensures Settled(r, ReplyK, c0, false) && (r.Pending? ==> stack != [])
      ensures r.Ready? ==> (r.value.List? || r.value.Set? || r.value.Push?) && r.value == Wrap(shape, r.value.items) && Measure() <= old(Measure())
      ensures clean ==>
                Agrees(r, AfterAggregate(Opts(), shape, chunk, View(CallK(Opts(), SizeP, stk0, h0, chunk, c0)))) &&
                (r.Pending? ==> Resumes(AggregateF(shape), stk0, h0, c0))
      ensures Tidy(r, clean, false)
    {
      ghost var k := count;
      var l := ParseExpressionList(shape, [], n);
      r := MapStep(l, (items: seq<Reply>) => Wrap(shape, items));
      if clean {
        SlotsFresh(Opts(), [], n, h0, chunk, k);
        if r.Pending? {
          NextResumes(Opts(), AggregateF(shape), stk0, h0, chunk, c0, Val(ASize(Sized(n))), k, stack, HeldBytes(), count);
        }
      }
    }

    /** `parseHash`: a size, then that many entries; the same special sizes as lists. */
    method ParseHash() returns (r: Step<Reply>)
      requires Chain(stack, SizeK) && 0 <= count
      modifies this`count, this`stack, composer`parts
      decreases Measure(), 8
      ensures Settled(r, MapK, old(count), false) && (r.Pending? ==> stack != [])
      ensures r.Ready? ==> (r.value.Map? || r.value.Null?) && Measure() < old(Measure())
      ensures Clean(old(stack), old(composer.parts)) ==>
                Agrees(r, AfterHash(Opts(), chunk, View(CallK(Opts(), SizeP, old(stack), old(HeldBytes()), chunk, old(count))))) &&
                (r.Pending? ==> Resumes(HashF, old(stack), old(HeldBytes()), old(count)))
      ensures Tidy(r, Clean(old(stack), old(composer.parts)), false)
      ensures old(count) >= |chunk| && old(stack) != [] ==> Idle(r, old(count), old(stack), old(composer.parts), [HashF])
    {
      ghost var stk0, h0, c0, parts0 := stack, HeldBytes(), count, composer.parts;
      ChainNotComposing(stack, SizeK);
      var x := Call(SizeP);
      if x.Ready? {
        r := HashOf(x.value.size, stk0, h0, c0, Clean(stk0, parts0));
      } else {
        ChainPush(stack, HashF, MapK);
        PushResumes(Opts(), HashF, SizeP, stack, HeldBytes(), chunk, count, stk0, h0, c0);
        CleanPush(stack, HashF, composer.parts);
        stack := stack + [HashF];
        r := Pending;
      }
    }

    /** The entries `parseHash` reads once the size is known. */
    method HashOf(size: Size, ghost stk0: seq<Frame>, ghost h0: seq<Byte>, ghost c0: nat, ghost clean: bool)
      returns (r: Step<Reply>)
      requires stack == [] && c0 <= count
      requires clean ==> composer.parts == [] && CallK(Opts(), SizeP, stk0, h0, chunk, c0) == Got(Val(ASize(size)), count)
      modifies this`count, this`stack, composer`parts
      decreases Measure(), 29
      ensures Settled(r, MapK, c0, false) && (r.Pending? ==> stack != [])
      ensures r.Ready? ==> (r.value.Map? || r.value.Null?) && Measure() <= old(Measure())
      ensures clean ==>
                Agrees(r, AfterHash(Opts(), chunk, View(CallK(Opts(), SizeP, stk0, h0, chunk, c0)))) &&
                (r.Pending? ==> Resumes(HashF, stk0, h0, c0))
      ensures Tidy(r, clean, false)
    {
      ghost var k := count;
      match size {
      case Sized(n) =>
        if n >= ArrayLengthLimit {
          r := Threw(RangeError);
        } else if n > 0 {
          r := EntriesOf(n, stk0, h0, c0, clean);
        } else if n == 0 {
          r := Ready(Map([]));
        } else {
          r := Ready(Null);
        }
      case Streamed =>
        var l := ParseStreamedEntryList([]);
        r := MapStep(l, (entries: seq<Entry>) => Map(entries));
        if clean && r.Pending? {
          NextResumes(Opts(), HashF, stk0, h0, chunk, c0, Val(ASize(size)), k, stack, HeldBytes(), count);
        }
      }
    }

    /** The `n` entries `HashOf` reads for a counted size. */
    method EntriesOf(n: int, ghost stk0: seq<Frame>, ghost h0: seq<Byte>, ghost c0: nat, ghost clean: bool)
      returns (r: Step<Reply>)
      requires stack == [] && c0 <= count && 0 < n < ArrayLengthLimit
      requires clean ==> composer.parts == [] && CallK(Opts(), SizeP, stk0, h0, chunk, c0) == Got(Val(ASize(Sized(n))), count)
      modifies this`count, this`stack, composer`parts
      decreases Measure(), 27
      ensures Settled(r, MapK, c0, false) && (r.Pending? ==> stack != [])
      ensures r.Ready? ==> r.value.Map? && Measure() <= old(Measure())
      ensures clean ==>
                Agrees(r, AfterHash(Opts(), chunk, View(CallK(Opts(), SizeP, stk0, h0, chunk, c0)))) &&
                (r.Pending? ==> Resumes(HashF, stk0, h0, c0))
      ensures Tidy(r, clean, false)
    {
      ghost var k := count;
      var l := ParseEntryList([], n);
      r := MapStep(l, (entries: seq<Entry>) => Map(entries));
      if clean {
        EntriesFresh(Opts(), [], n, h0, chunk, k);
        if r.Pending? {
          NextResumes(Opts(), HashF, stk0, h0, chunk, c0, Val(ASize(Sized(n))), k, stack, HeldBytes(), count);
        }
      }
    }

    /**
     * `parseAttributes`: an attribute map, then the reply it annotates; a
     * `null` map means the next reply is returned as it is.
     */
    method ParseAttributes() returns (r: Step<Reply>)
      requires Chain(stack, MapK) && 0 <= count
      modifies this`count, this`stack, composer`parts
      decreases Measure(), 16
      ensures Settled(r, ReplyK, old(count), false) && (r.Pending? ==> stack != [])
      ensures Clean(old(stack), old(composer.parts)) ==>
                Agrees(r, AfterAttributes(Opts(), chunk, View(CallK(Opts(), HashP, old(stack), old(HeldBytes()), chunk, old(count))))) &&
                (r.Pending? ==> Resumes(AttributesF, old(stack), old(HeldBytes()), old(count)))
      ensures Tidy(r, Clean(old(stack), old(composer.parts)), false)
      ensures old(count) >= |chunk| && old(stack) != [] ==> Idle(r, old(count), old(stack), old(composer.parts), [AttributesF])
    {
      ghost var stk0, h0, c0, parts0 := stack, HeldBytes(), count, composer.parts;
      var x := Call(HashP);
      match x
      case Ready(v) =>
        ghost var k := count;
        if v.reply.Map? {
          r := ParseWithAttributes(v.reply.entries);
          if Clean(stk0, parts0) {
            WithFresh(Opts(), v.reply.entries, HeldBytes(), chunk, k);
            if r.Pending? {
              NextResumes(Opts(), AttributesF, stk0, h0, chunk, c0, Val(v), k, stack, HeldBytes(), count);
            }
          }
        } else {
          r := ParseUnannotated();
          if Clean(stk0, parts0) && r.Pending? {
            NextResumes(Opts(), AttributesF, stk0, h0, chunk, c0, Val(v), k, stack, HeldBytes(), count);
          }
        }
      case Threw(e) => r := Threw(e);
      case Pending =>
        ChainPush(stack, AttributesF, ReplyK);
        if Clean(stk0, parts0) {
          PushResumes(Opts(), AttributesF, HashP, stack, HeldBytes(), chunk, count, stk0, h0, c0);
        }
        CleanPush(stack, AttributesF, composer.parts);
        stack := stack + [AttributesF];
        r := Pending;
    }

    /**
     * `parseWithAttributes`: the annotated reply paired with the attributes;
     * a reply that already carries attributes is returned as it is, and a
     * `null` reply raises `TypeError` (`hasAttributes(null)`).
     */
    method ParseWithAttributes(attrs: seq<Entry>) returns (r: Step<Reply>)
      requires Chain(stack, ReplyK) && 0 <= count
      modifies this`count, this`stack, composer`parts
      decreases Measure(), 12
      ensures Settled(r, ReplyK, old(count), false) && (r.Pending? ==> stack != [])
      ensures r.Ready? ==> r.value.Attributed?
      ensures Clean(old(stack), old(composer.parts)) ==>
                Agrees(r, AfterWith(attrs, View(CallK(Opts(), Resp3P, old(stack), old(HeldBytes()), chunk, old(count))))) &&
                (r.Pending? ==> Resumes(WithAttributesF(attrs), old(stack), old(HeldBytes()), old(count)))
      ensures Tidy(r, Clean(old(stack), old(composer.parts)), false)
      ensures old(count) >= |chunk| ==> Idle(r, old(count), old(stack), old(composer.parts), [WithAttributesF(attrs)])
    {
      ghost var stk0, h0, c0, parts0 := stack, HeldBytes(), count, composer.parts;
      var x := Call(Resp3P);
      match x
      case Ready(v) =>
        var reply := AsReply(v);
        if reply.Null? {
          r := Threw(TypeError);
        } else if reply.Attributed? {
          r := Ready(reply);
        } else {
          r := Ready(Attributed(attrs, reply));
        }
      case Threw(e) => r := Threw(e);
      case Pending =>
        ChainPushOnReply(stack, WithAttributesF(attrs), ReplyK);
        if Clean(stk0, parts0) {
          PushResumes(Opts(), WithAttributesF(attrs), Resp3P, stack, HeldBytes(), chunk, count, stk0, h0, c0);
        }
        CleanPush(stack, WithAttributesF(attrs), composer.parts);
        stack := stack + [WithAttributesF(attrs)];
        r := Pending;
    }

    /**
     * `parseExpressionList`: fills the slots `|o|` to `s - 1` with one reply
     * each, in order; suspends with the slots filled so far. Resumed, the
     * slot that suspended is finished first; the rest are read afresh.
     */
    method ParseExpressionList(shape: Shape, o0: seq<Reply>, s: int) returns (r: Step<seq<Reply>>)
      requires |o0| < s && (shape == EntryS ==> s == 2)
      requires Chain(stack, ReplyK) && 0 <= count
      modifies this`count, this`stack, composer`parts
      decreases Measure(), 14
      ensures Settled(r, Produces(ExprListF(shape, o0, s)), old(count), false) && (r.Pending? ==> stack != [])
      ensures r.Ready? ==> |r.value| == s && r.value[..|o0|] == o0 && Measure() < old(Measure())
      ensures Clean(old(stack), old(composer.parts)) ==>
                Agrees(r, AfterSlots(Opts(), o0, s, chunk, View(CallK(Opts(), ParseP, old(stack), old(HeldBytes()), chunk, old(count))))) &&
                (r.Pending? ==> Resumes(ExprListF(shape, o0, s), old(stack), old(HeldBytes()), old(count)))
      ensures Tidy(r, Clean(old(stack), old(composer.parts)), false)
      ensures old(count) >= |chunk| ==> Idle(r, old(count), old(stack), old(composer.parts), [ExprListF(shape, o0, s)])
    {
      if stack == [] {
        ghost var h0, c0 := HeldBytes(), count;
        r := FillSlots(shape, o0, s);
        SlotsFresh(Opts(), o0, s, h0, chunk, c0);
      } else {
        r := ResumeSlots(shape, o0, s);
      }
    }

    /** `parseExpressionList` resumed: the slot that suspended is finished first. */
    method ResumeSlots(shape: Shape, o0: seq<Reply>, s: int) returns (r: Step<seq<Reply>>)
      requires |o0| < s && (shape == EntryS ==> s == 2)
      requires Chain(stack, ReplyK) && 0 <= count && stack != []
      modifies this`count, this`stack, composer`parts
      decreases Measure(), 13
      ensures Settled(r, Produces(ExprListF(shape, o0, s)), old(count), false) && (r.Pending? ==> stack != [])
      ensures r.Ready? ==> |r.value| == s && r.value[..|o0|] == o0 && Measure() < old(Measure())
      ensures Clean(old(stack), old(composer.parts)) ==>
                Agrees(r, AfterSlots(Opts(), o0, s, chunk, View(CallK(Opts(), ParseP, old(stack), old(HeldBytes()), chunk, old(count))))) &&
                (r.Pending? ==> Resumes(ExprListF(shape, o0, s), old(stack), old(HeldBytes()), old(count)))
      ensures Tidy(r, Clean(old(stack), old(composer.parts)), false)
      ensures old(count) >= |chunk| ==> Idle(r, old(count), old(stack), old(composer.parts), [ExprListF(shape, o0, s)])
    {
      ghost var stk0, h0, c0, parts0 := stack, HeldBytes(), count, composer.parts;
      var e := Call(ParseP);
      match e
      case Ready(v) =>
        if |o0| + 1 < s {
          r := RefillSlots(shape, o0, s, AsReply(v), stk0, h0, c0, Clean(stk0, parts0));
        } else {
          r := Ready(o0 + [AsReply(v)]);
        }
      case Threw(fault) =>
        r := Threw(fault);
      case Pending =>
        ChainPushSlots(stack, shape, o0, s);
        if Clean(stk0, parts0) {
          PushResumes(Opts(), ExprListF(shape, o0, s), ParseP, stack, HeldBytes(), chunk, count, stk0, h0, c0);
        }
        CleanPush(stack, ExprListF(shape, o0, s), composer.parts);
        stack := stack + [ExprListF(shape, o0, s)];
        r := Pending;
    }

    /** The rest of a resumed `parseExpressionList` once the suspended slot gave `v`. */
    method RefillSlots(shape: Shape, o0: seq<Reply>, s: int, v: Reply,
                       ghost stk0: seq<Frame>, ghost h0: seq<Byte>, ghost c0: nat, ghost clean: bool)
      returns (r: Step<seq<Reply>>)
      requires |o0| + 1 < s && (shape == EntryS ==> s == 2)
      requires stack == [] && c0 <= count
      requires clean ==> composer.parts == [] && View(CallK(Opts(), ParseP, stk0, h0, chunk, c0)) == Got(Val(AReply(v)), count)
      modifies this`count, this`stack, composer`parts
      decreases Measure(), 12
      ensures Settled(r, Produces(ExprListF(shape, o0, s)), c0, false) && (r.Pending? ==> stack != [])
      ensures r.Ready? ==> |r.value| == s && r.value[..|o0|] == o0 && Measure() < old(Measure())
      ensures clean ==>
                Agrees(r, AfterSlots(Opts(), o0, s, chunk, View(CallK(Opts(), ParseP, stk0, h0, chunk, c0)))) &&
                (r.Pending? ==> Resumes(ExprListF(shape, o0, s), stk0, h0, c0))
      ensures Tidy(r, clean, false)
    {
      var o := o0 + [v];
      ghost var k := count;
      r := FillSlots(shape, o, s);
      if r.Ready? {
        assert r.value[..|o0|] == o[..|o0|];
      }
      if clean && r.Pending? {
        SlotsResumes(Opts(), shape, o0, s, stk0, h0, c0, chunk, v, k, stack, HeldBytes(), count);
      }
    }

    /** The loop of `parseExpressionList` over slots read afresh, nothing suspended below it. */
    method FillSlots(shape: Shape, o0: seq<Reply>, s: int) returns (r: Step<seq<Reply>>)
      requires |o0| < s && (shape == EntryS ==> s == 2)
      requires stack == [] && 0 <= count
      modifies this`count, this`stack, composer`parts
      decreases Measure(), 11
      ensures Settled(r, Produces(ExprListF(shape, o0, s)), old(count), false) && (r.Pending? ==> stack != [])
      ensures r.Ready? ==> |r.value| == s && r.value[..|o0|] == o0 && Measure() < old(Measure())
      ensures old(composer.parts) == [] ==>
                Agrees(r, RefSlots(Opts(), chunk, old(count), o0, s)) &&
                (r.Pending? ==> Resumes(ExprListF(shape, o0, s), [], [], old(count)))
      ensures Tidy(r, old(composer.parts) == [], false)
      ensures old(count) >= |chunk| ==> Idle(r, old(count), [], old(composer.parts), [ExprListF(shape, o0, s)])
    {
      ghost var c0, clean := count, composer.parts == [];
      SlotsStart(Opts(), o0, s, chunk, c0);
      var o := o0;
      while |o| < s
        invariant |o0| <= |o| <= s && o[..|o0|] == o0
        invariant old(count) <= count && stack == []
        invariant Measure() <= old(Measure()) && (|o| > |o0| ==> Measure() < old(Measure()))
        invariant clean ==> composer.parts == [] && SlotsFrom(Opts(), o0, s, [], [], c0, chunk, count, o)
        invariant old(count) >= |chunk| ==> o == o0 && count == old(count) && composer.parts == old(composer.parts)
        decreases s - |o|
      {
        var e := NextSlot(shape, o0, s, o, c0, clean);
        if !e.Ready? {
          return if e.Threw? then Threw(e.fault) else Pending;
        }
        o := o + [AsReply(e.value)];
      }
      if clean {
        SlotsHere(Opts(), o0, s, [], [], c0, chunk, count, o);
      }
      return Ready(o);
    }

    /** One pass of that loop: `call(parse)` for slot `|o|`, and the list pushed if the slot suspends. */
    method NextSlot(shape: Shape, o0: seq<Reply>, s: int, o: seq<Reply>, ghost c0: nat, ghost clean: bool)
      returns (e: Step<Value>)
      requires |o0| <= |o| < s && (shape == EntryS ==> s == 2)
      requires stack == [] && c0 <= count
      requires clean ==> composer.parts == [] && SlotsFrom(Opts(), o0, s, [], [], c0, chunk, count, o)
      modifies this`count, this`stack, composer`parts
      decreases Measure(), 10
      ensures old(count) <= count
      ensures e.Ready? ==> Has(e.value, ReplyK) && stack == [] && Measure() < old(Measure())
      ensures e.Ready? && clean ==>
                composer.parts == [] && SlotsFrom(Opts(), o0, s, [], [], c0, chunk, count, o + [AsReply(e.value)])
      ensures !e.Ready? ==> Settled(e, Produces(ExprListF(shape, o0, s)), old(count), false) && (e.Pending? ==> stack != [])
      ensures e.Threw? && clean ==> composer.parts == [] && RefSlots(Opts(), chunk, c0, o0, s) == Fail(e.fault)
      ensures e.Pending? && clean ==>
                Clean(stack, composer.parts) && RefSlots(Opts(), chunk, c0, o0, s).Short? &&
                Resumes(ExprListF(shape, o0, s), [], [], c0)
      ensures old(count) >= |chunk| ==>
                e == Pending && count == old(count) && stack == [ExprListF(shape, o, s)] && composer.parts == old(composer.parts)
    {
      ghost var c := count;
      e := Call(ParseP);
      if e.Ready? {
        if clean {
          SlotsNext(Opts(), o0, s, [], [], c0, chunk, c, o, AsReply(e.value), count);
        }
      } else if e.Threw? {
        if clean {
          SlotsHere(Opts(), o0, s, [], [], c0, chunk, c, o);
        }
      } else {
        SuspendSlots(shape, o0, s, o, c0, c, clean);
      }
    }

    /** `NextSlot` once the slot's reply suspended: the list goes on the stack above it. */
    method SuspendSlots(shape: Shape, o0: seq<Reply>, s: int, o: seq<Reply>, ghost c0: nat, ghost c: nat, ghost clean: bool)
      requires |o0| <= |o| < s && (shape == EntryS ==> s == 2) && c0 <= c <= count
      requires Chain(stack, ReplyK) && Starved()
      requires clean ==>
                 SlotsFrom(Opts(), o0, s, [], [], c0, chunk, c, o) && Clean(stack, composer.parts) &&
                 CallK(Opts(), ParseP, [], [], chunk, c).Short? && Continues(ParseP, [], [], c)
      modifies this`stack
      ensures stack == old(stack) + [ExprListF(shape, o, s)]
      ensures Chain(stack, Produces(ExprListF(shape, o0, s))) && Starved()
      ensures clean ==>
                Clean(stack, composer.parts) && RefSlots(Opts(), chunk, c0, o0, s).Short? &&
                Resumes(ExprListF(shape, o0, s), [], [], c0)
    {
      ChainPushSlots(stack, shape, o, s);
      if clean {
        SlotsSuspend(Opts(), shape, o0, s, [], [], c0, chunk, c, o, stack, HeldBytes(), count);
        SlotsHere(Opts(), o0, s, [], [], c0, chunk, c, o);
      }
      CleanPush(stack, ExprListF(shape, o, s), composer.parts);
      stack := stack + [ExprListF(shape, o, s)];
    }

    /** `parseEntry`: a key and a value, read as a two-slot expression list. */
    method ParseEntry() returns (r: Step<Entry>)
      requires stack == [] && 0 <= count
      modifies this`count, this`stack, composer`parts
      decreases Measure(), 16
      ensures Settled(r, EntryK, old(count), false) && (r.Pending? ==> stack != [])
      ensures r.Ready? ==> Measure() < old(Measure())
      ensures old(composer.parts) == [] ==>
                Agrees(r, RefEntry(Opts(), chunk, old(count))) &&
                (r.Pending? ==> Resumes(ExprListF(EntryS, [], 2), [], [], old(count)))
      ensures Tidy(r, old(composer.parts) == [], false)
    {
      var x := ParseExpressionList(EntryS, [], 2);
      SlotsFresh(Opts(), [], 2, HeldBytes(), chunk, old(count));
      match x
      case Ready(v) => r := Ready(Entry(v[0], v[1]));
      case Pending => r := Pending;
      case Threw(e) => r := Threw(e);
    }

    /** `parseStreamedEntry`: the next entry, unless the `.` that ends the stream is under the cursor. */
    method ParseStreamedEntry() returns (r: Step<Entry>)
      requires stack == [] && 0 <= count && At(chunk, count).Some?
      modifies this`count, this`stack, composer`parts
      decreases Measure(), 20
      ensures Settled(r, EntryK, old(count), true)
      ensures r.Ready? ==> Measure() < old(Measure())
      ensures At(chunk, old(count)) == Some(Dot) ==>
                r == Pending && count == old(count) && stack == [] && composer.parts == old(composer.parts)
      ensures At(chunk, old(count)) != Some(Dot) ==>
                (r.Pending? ==> Starved() && stack != []) &&
                (old(composer.parts) == [] ==>
                   Agrees(r, RefEntry(Opts(), chunk, old(count))) &&
                   (r.Pending? ==> Resumes(ExprListF(EntryS, [], 2), [], [], old(count))))
      ensures Tidy(r, old(composer.parts) == [], false)
    {
      if At(chunk, count) != Some(Dot) {
        r := ParseEntry();
      } else {
        r := Pending;
      }
    }

    /** `parseEntryList`: fills the entries `|o|` to `s - 1`, decoding `Bulk` keys. */
    method ParseEntryList(o0: seq<Entry>, s: int) returns (r: Step<seq<Entry>>)
      requires |o0| < s && Chain(stack, EntryK) && 0 <= count
      modifies this`count, this`stack, composer`parts
      decreases Measure(), 26
      ensures Settled(r, MapK, old(count), false) && (r.Pending? ==> stack != [])
      ensures r.Ready? ==> |r.value| == s && r.value[..|o0|] == o0 && Measure() < old(Measure())
      ensures Clean(old(stack), old(composer.parts)) ==>
                Agrees(r, AfterEntries(Opts(), o0, s, chunk, View(CallK(Opts(), EntryP, old(stack), old(HeldBytes()), chunk, old(count))))) &&
                (r.Pending? ==> Resumes(EntryListF(o0, s), old(stack), old(HeldBytes()), old(count)))
      ensures Tidy(r, Clean(old(stack), old(composer.parts)), false)
      ensures old(count) >= |chunk| && old(stack) != [] ==> Idle(r, old(count), old(stack), old(composer.parts), [EntryListF(o0, s)])
    {
      if stack == [] {
        ghost var h0, c0 := HeldBytes(), count;
        r := FillEntries(o0, s);
        EntriesFresh(Opts(), o0, s, h0, chunk, c0);
      } else {
        r := ResumeEntries(o0, s);
      }
    }

    /** `parseEntryList` resumed: the entry that suspended is finished first. */
    method ResumeEntries(o0: seq<Entry>, s: int) returns (r: Step<seq<Entry>>)
      requires |o0| < s && Chain(stack, EntryK) && 0 <= count && stack != []
      modifies this`count, this`stack, composer`parts
      decreases Measure(), 25
      ensures Settled(r, MapK, old(count), false) && (r.Pending? ==> stack != [])
      ensures r.Ready? ==> |r.value| == s && r.value[..|o0|] == o0 && Measure() < old(Measure())
      ensures Clean(old(stack), old(composer.parts)) ==>
                Agrees(r, AfterEntries(Opts(), o0, s, chunk, View(CallK(Opts(), EntryP, old(stack), old(HeldBytes()), chunk, old(count))))) &&
                (r.Pending? ==> Resumes(EntryListF(o0, s), old(stack), old(HeldBytes()), old(count)))
      ensures Tidy(r, Clean(old(stack), old(composer.parts)), false)
      ensures old(count) >= |chunk| ==> Idle(r, old(count), old(stack), old(composer.parts), [EntryListF(o0, s)])
    {
      ghost var stk0, h0, c0, parts0 := stack, HeldBytes(), count, composer.parts;
      var e := Call(EntryP);
      match e
      case Ready(v) =>
        if |o0| + 1 < s {
          r := RefillEntries(o0, s, v.entry, stk0, h0, c0, Clean(stk0, parts0));
        } else {
          r := Ready(o0 + [DecodeKey(bulkText, v.entry)]);
        }
      case Threw(fault) =>
        r := Threw(fault);
      case Pending =>
        ChainPush(stack, EntryListF(o0, s), MapK);
        if Clean(stk0, parts0) {
          PushResumes(Opts(), EntryListF(o0, s), EntryP, stack, HeldBytes(), chunk, count, stk0, h0, c0);
        }
        CleanPush(stack, EntryListF(o0, s), composer.parts);
        stack := stack + [EntryListF(o0, s)];
        r := Pending;
    }

    /** The rest of a resumed `parseEntryList` once the suspended entry gave `x`. */
    method RefillEntries(o0: seq<Entry>, s: int, x: Entry,
                         ghost stk0: seq<Frame>, ghost h0: seq<Byte>, ghost c0: nat, ghost clean: bool)
      returns (r: Step<seq<Entry>>)
      requires |o0| + 1 < s
      requires stack == [] && c0 <= count
      requires clean ==> composer.parts == [] && View(CallK(Opts(), EntryP, stk0, h0, chunk, c0)) == Got(Val(AnEntry(x)), count)
      modifies this`count, this`stack, composer`parts
      decreases Measure(), 24
      ensures Settled(r, MapK, c0, false) && (r.Pending? ==> stack != [])
      ensures r.Ready? ==> |r.value| == s && r.value[..|o0|] == o0 && Measure() < old(Measure())
      ensures clean ==>
                Agrees(r, AfterEntries(Opts(), o0, s, chunk, View(CallK(Opts(), EntryP, stk0, h0, chunk, c0)))) &&
                (r.Pending? ==> Resumes(EntryListF(o0, s), stk0, h0, c0))
      ensures Tidy(r, clean, false)
    {
      var o := o0 + [DecodeKey(bulkText, x)];
      ghost var k := count;
      r := FillEntries(o, s);
      if r.Ready? {
        assert r.value[..|o0|] == o[..|o0|];
      }
      if clean && r.Pending? {
        EntriesResumes(Opts(), o0, s, stk0, h0, c0, chunk, x, k, stack, HeldBytes(), count);
      }
    }

    /** The loop of `parseEntryList` over entries read afresh, nothing suspended below it. */
    method FillEntries(o0: seq<Entry>, s: int) returns (r: Step<seq<Entry>>)
      requires |o0| < s && stack == [] && 0 <= count
      modifies this`count, this`stack, composer`parts
      decreases Measure(), 23
      ensures Settled(r, MapK, old(count), false) && (r.Pending? ==> stack != [])
      ensures r.Ready? ==> |r.value| == s && r.value[..|o0|] == o0 && Measure() < old(Measure())
      ensures old(composer.parts) == [] ==>
                Agrees(r, RefEntries(Opts(), chunk, old(count), o0, s)) &&
                (r.Pending? ==> Resumes(EntryListF(o0, s), [], [], old(count)))
      ensures Tidy(r, old(composer.parts) == [], false)
    {
      ghost var c0, clean := count, composer.parts == [];
      EntriesStart(Opts(), o0, s, chunk, c0);
      var o := o0;
      while |o| < s
        invariant |o0| <= |o| <= s && o[..|o0|] == o0
        invariant old(count) <= count && stack == []
        invariant Measure() <= old(Measure()) && (|o| > |o0| ==> Measure() < old(Measure()))
        invariant clean ==> composer.parts == [] && EntriesFrom(Opts(), o0, s, [], [], c0, chunk, count, o)
        decreases s - |o|
      {
        var e := NextEntry(o0, s, o, c0, clean);
        if !e.Ready? {
          return if e.Threw? then Threw(e.fault) else Pending;
        }
        o := o + [DecodeKey(bulkText, e.value.entry)];
      }
      if clean {
        EntriesHere(Opts(), o0, s, [], [], c0, chunk, count, o);
      }
      return Ready(o);
    }

    /** One pass of that loop: `call(parseEntry)` for entry `|o|`, and the list pushed if it suspends. */
    method NextEntry(o0: seq<Entry>, s: int, o: seq<Entry>, ghost c0: nat, ghost clean: bool)
      returns (e: Step<Value>)
      requires |o0| <= |o| < s
      requires stack == [] && c0 <= count
      requires clean ==> composer.parts == [] && EntriesFrom(Opts(), o0, s, [], [], c0, chunk, count, o)
      modifies this`count, this`stack, composer`parts
      decreases Measure(), 22
      ensures old(count) <= count
      ensures e.Ready? ==> e.value.AnEntry? && stack == [] && Measure() < old(Measure())
      ensures e.Ready? && clean ==>
                composer.parts == [] &&
                EntriesFrom(Opts(), o0, s, [], [], c0, chunk, count, o + [DecodeKey(bulkText, e.value.entry)])
      ensures !e.Ready? ==> Settled(e, MapK, old(count), false) && (e.Pending? ==> stack != [])
      ensures e.Threw? && clean ==> composer.parts == [] && RefEntries(Opts(), chunk, c0, o0, s) == Fail(e.fault)
      ensures e.Pending? && clean ==>
                Clean(stack, composer.parts) && RefEntries(Opts(), chunk, c0, o0, s).Short? &&
                Resumes(EntryListF(o0, s), [], [], c0)
    {
      ghost var c := count;
      e := Call(EntryP);
      if e.Ready? {
        if clean {
          EntriesNext(Opts(), o0, s, [], [], c0, chunk, c, o, e.value.entry, count);
        }
      } else if e.Threw? {
        if clean {
          EntriesHere(Opts(), o0, s, [], [], c0, chunk, c, o);
        }
      } else {
        ChainPush(stack, EntryListF(o, s), MapK);
        if clean {
          EntriesSuspend(Opts(), o0, s, [], [], c0, chunk, c, o, stack, HeldBytes(), count);
          EntriesHere(Opts(), o0, s, [], [], c0, chunk, c, o);
        }
        CleanPush(stack, EntryListF(o, s), composer.parts);
        stack := stack + [EntryListF(o, s)];
      }
    }

    /**
     * `parseStreamedExpressionList`: the element suspended under the list
     * first, then replies appended while a byte is available, until the `.`
     * that ends the stream.
     */
    method ParseStreamedExpressionList(shape: Shape, o0: seq<Reply>) returns (r: Step<seq<Reply>>)
      requires shape != EntryS && Chain(stack, ReplyK) && 0 <= count
      modifies this`count, this`stack, composer`parts
      decreases Measure(), 16
      ensures Settled(r, ReplyK, old(count), false) && (r.Pending? ==> stack != [])
      ensures r.Ready? ==> |o0| <= |r.value| && r.value[..|o0|] == o0
      ensures Clean(old(stack), old(composer.parts)) ==>
                Agrees(r, StreamedK(Opts(), o0, old(stack), old(HeldBytes()), chunk, old(count))) &&
                (r.Pending? ==> Resumes(StreamedListF(shape, o0), old(stack), old(HeldBytes()), old(count)))
      ensures Tidy(r, Clean(old(stack), old(composer.parts)), false)
      ensures old(count) >= |chunk| ==> Idle(r, old(count), old(stack), old(composer.parts), [StreamedListF(shape, o0)])
    {
      ghost var stk0, h0, c0, parts0 := stack, HeldBytes(), count, composer.parts;
      ghost var clean := Clean(stk0, parts0);
      if stack == [] {
        r := StreamReplies(shape, o0, o0, [], h0, c0, clean);
        return;
      }
      var e := Call(StreamedReplyP);
      if e.Threw? {
        return Threw(e.fault);
      } else if e.Pending? {
        ChainPush(stack, StreamedListF(shape, o0), ReplyK);
        if clean {
          StreamedPushResumes(Opts(), shape, o0, stack, HeldBytes(), chunk, count, stk0, h0, c0);
        }
        CleanPush(stack, StreamedListF(shape, o0), composer.parts);
        stack := stack + [StreamedListF(shape, o0)];
        return Pending;
      }
      if clean {
        StreamedFirst(Opts(), o0, stk0, h0, chunk, c0, AsReply(e.value), count);
      }
      r := StreamReplies(shape, o0, o0 + [AsReply(e.value)], stk0, h0, c0, clean);
    }

    /** The loop of `parseStreamedExpressionList`: replies appended while a byte is available, then the `.` or a suspension. */
    method StreamReplies(shape: Shape, o0: seq<Reply>, o1: seq<Reply>, ghost stk0: seq<Frame>, ghost h0: seq<Byte>, ghost c0: nat, ghost clean: bool)
      returns (r: Step<seq<Reply>>)
      requires shape != EntryS && stack == [] && c0 <= count && |o0| <= |o1| && o1[..|o0|] == o0
      requires clean ==> composer.parts == [] && StreamedFrom(Opts(), o0, stk0, h0, c0, chunk, count, o1)
      modifies this`count, this`stack, composer`parts
      decreases Measure(), 15
      ensures Settled(r, ReplyK, old(count), false) && (r.Pending? ==> stack != [])
      ensures r.Ready? ==> |o0| <= |r.value| && r.value[..|o0|] == o0
      ensures clean ==>
                Agrees(r, StreamedK(Opts(), o0, stk0, h0, chunk, c0)) &&
                (r.Pending? ==> Resumes(StreamedListF(shape, o0), stk0, h0, c0))
      ensures Tidy(r, clean, false)
      ensures old(count) >= |chunk| ==>
                r == Pending && count == old(count) && stack == [StreamedListF(shape, o1)] && composer.parts == old(composer.parts)
    {
      var o := o1;
      while Truthy(At(chunk, count))
        invariant |o0| <= |o| && o[..|o0|] == o0
        invariant old(count) <= count && stack == []
        invariant clean ==> composer.parts == [] && StreamedFrom(Opts(), o0, stk0, h0, c0, chunk, count, o)
        invariant old(count) >= |chunk| ==> o == o1 && count == old(count) && composer.parts == old(composer.parts)
        decreases Measure()
      {
        ghost var c := count;
        var e := Call(StreamedReplyP);
        if e.Threw? {
          if clean {
            StreamedHere(Opts(), o0, stk0, h0, c0, chunk, c, o);
          }
          return Threw(e.fault);
        } else if e.Pending? {
          if clean && stack != [] {
            StreamedSuspend(Opts(), shape, o0, stk0, h0, c0, chunk, c, o, stack, HeldBytes(), count);
            StreamedHere(Opts(), o0, stk0, h0, c0, chunk, c, o);
          }
          break;
        }
        if clean {
          StreamedNext(Opts(), o0, stk0, h0, c0, chunk, c, o, AsReply(e.value), count);
        }
        o := o + [AsReply(e.value)];
      }
      if At(chunk, count) == Some(Dot) {
        if clean {
          StreamedHere(Opts(), o0, stk0, h0, c0, chunk, count, o);
        }
        count := count + 3;
        return Ready(o);
      }
      if clean && stack == [] {
        StreamedSuspend(Opts(), shape, o0, stk0, h0, c0, chunk, count, o, [], HeldBytes(), count);
        StreamedHere(Opts(), o0, stk0, h0, c0, chunk, count, o);
      }
      ChainPush(stack, StreamedListF(shape, o), ReplyK);
      CleanPush(stack, StreamedListF(shape, o), composer.parts);
      stack := stack + [StreamedListF(shape, o)];
      return Pending;
    }

    /**
     * `parseStreamedEntryList`: the entry suspended under the map first,
     * then entries appended (keys as read) until the `.` that ends the stream.
     */
    method ParseStreamedEntryList(o0: seq<Entry>) returns (r: Step<seq<Entry>>)
      requires Chain(stack, EntryK) && 0 <= count
      modifies this`count, this`stack, composer`parts
      decreases Measure(), 28
      ensures Settled(r, MapK, old(count), false) && (r.Pending? ==> stack != [])
      ensures r.Ready? ==> |o0| <= |r.value| && r.value[..|o0|] == o0
      ensures Clean(old(stack), old(composer.parts)) ==>
                Agrees(r, StreamedEntriesK(Opts(), o0, old(stack), old(HeldBytes()), chunk, old(count))) &&
                (r.Pending? ==> Resumes(StreamedEntriesF(o0), old(stack), old(HeldBytes()), old(count)))
      ensures Tidy(r, Clean(old(stack), old(composer.parts)), false)
      ensures old(count) >= |chunk| ==> Idle(r, old(count), old(stack), old(composer.parts), [StreamedEntriesF(o0)])
    {
      ghost var stk0, h0, c0, parts0 := stack, HeldBytes(), count, composer.parts;
      ghost var clean := Clean(stk0, parts0);
      if stack == [] {
        r := StreamEntries(o0, o0, [], h0, c0, clean);
        return;
      }
      var e := Call(StreamedEntryP);
      if e.Threw? {
        return Threw(e.fault);
      } else if e.Pending? {
        ChainPush(stack, StreamedEntriesF(o0), MapK);
        if clean {
          StreamedEntriesPushResumes(Opts(), o0, stack, HeldBytes(), chunk, count, stk0, h0, c0);
        }
        CleanPush(stack, StreamedEntriesF(o0), composer.parts);
        stack := stack + [StreamedEntriesF(o0)];
        return Pending;
      }
      if clean {
        StreamedEntriesFirst(Opts(), o0, stk0, h0, chunk, c0, e.value.entry, count);
      }
      r := StreamEntries(o0, o0 + [e.value.entry], stk0, h0, c0, clean);
    }

    /** The loop of `parseStreamedEntryList`: entries appended while a byte is available, then the `.` or a suspension. */
    method StreamEntries(o0: seq<Entry>, o1: seq<Entry>, ghost stk0: seq<Frame>, ghost h0: seq<Byte>, ghost c0: nat, ghost clean: bool)
      returns (r: Step<seq<Entry>>)
      requires stack == [] && c0 <= count && |o0| <= |o1| && o1[..|o0|] == o0
      requires clean ==> composer.parts == [] && StreamedEntriesFrom(Opts(), o0, stk0, h0, c0, chunk, count, o1)
      modifies this`count, this`stack, composer`parts
      decreases Measure(), 27
      ensures Settled(r, MapK, old(count), false) && (r.Pending? ==> stack != [])
      ensures r.Ready? ==> |o0| <= |r.value| && r.value[..|o0|] == o0
      ensures clean ==>
                Agrees(r, StreamedEntriesK(Opts(), o0, stk0, h0, chunk, c0)) &&
                (r.Pending? ==> Resumes(StreamedEntriesF(o0), stk0, h0, c0))
      ensures Tidy(r, clean, false)
      ensures old(count) >= |chunk| ==>
                r == Pending && count == old(count) && stack == [StreamedEntriesF(o1)] && composer.parts == old(composer.parts)
    {
      var o := o1;
      while Truthy(At(chunk, count))
        invariant |o0| <= |o| && o[..|o0|] == o0
        invariant old(count) <= count && stack == []
        invariant clean ==> composer.parts == [] && StreamedEntriesFrom(Opts(), o0, stk0, h0, c0, chunk, count, o)
        invariant old(count) >= |chunk| ==> o == o1 && count == old(count) && composer.parts == old(composer.parts)
        decreases Measure()
      {
        ghost var c := count;
        var e := Call(StreamedEntryP);
        if e.Threw? {
          if clean {
            StreamedEntriesHere(Opts(), o0, stk0, h0, c0, chunk, c, o);
          }
          return Threw(e.fault);
        } else if e.Pending? {
          if clean && stack != [] {
            StreamedEntriesSuspend(Opts(), o0, stk0, h0, c0, chunk, c, o, stack, HeldBytes(), count);
            StreamedEntriesHere(Opts(), o0, stk0, h0, c0, chunk, c, o);
          }
          break;
        }
        if clean {
          StreamedEntriesNext(Opts(), o0, stk0, h0, c0, chunk, c, o, e.value.entry, count);
        }
        o := o + [e.value.entry];
      }
      if At(chunk, count) == Some(Dot) {
        if clean {
          StreamedEntriesHere(Opts(), o0, stk0, h0, c0, chunk, count, o);
        }
        count := count + 3;
        return Ready(o);
      }
      if clean && stack == [] {
        StreamedEntriesSuspend(Opts(), o0, stk0, h0, c0, chunk, count, o, [], HeldBytes(), count);
        StreamedEntriesHere(Opts(), o0, stk0, h0, c0, chunk, count, o);
      }
      ChainPush(stack, StreamedEntriesF(o), MapK);
      CleanPush(stack, StreamedEntriesF(o), composer.parts);
      stack := stack + [StreamedEntriesF(o)];
      return Pending;
    }

    /**
     * `captureBlob`: a size, then the payload: into the composer for a
     * positive size, `''` for 0, `null` for a negative size, and fragment by
     * fragment for `?`.
     */
    method CaptureBlob() returns (r: Step<Blob>)
      requires Chain(stack, SizeK) && 0 <= count
      modifies this`count, this`stack, composer`parts
      decreases Measure(), 8
      ensures Settled(r, BlobK, old(count), false) && (r.Pending? ==> stack != []) && !r.Threw?
      ensures r.Ready? ==> Measure() < old(Measure())
      ensures r.Ready? && !r.value.Composed? ==> count >= old(count) + 2 && !Composing(old(stack))
      ensures Holds(r, FrameK(Opts(), BlobF, old(stack), old(HeldBytes()), chunk, old(count)), old(composer.parts))
      ensures r.Pending? ==> Resumes(BlobF, old(stack), old(HeldBytes()), old(count))
      ensures Tidy(r, Clean(old(stack), old(composer.parts)), true)
      ensures old(count) >= |chunk| && old(stack) != [] ==> Idle(r, old(count), old(stack), old(composer.parts), [BlobF])
    {
      ghost var stk0, h0, c0, parts0 := stack, HeldBytes(), count, composer.parts;
      ChainNotComposing(stack, SizeK);
      var x := Call(SizeP);
      if x.Ready? {
        r := BlobOf(x.value.size, stk0, h0, c0, parts0);
      } else {
        ChainPush(stack, BlobF, BlobK);
        PushResumes(Opts(), BlobF, SizeP, stack, HeldBytes(), chunk, count, stk0, h0, c0);
        stack := stack + [BlobF];
        r := Pending;
      }
    }
    /** The payload `captureBlob` captures once the size is known. */
    method BlobOf(size: Size, ghost stk0: seq<Frame>, ghost h0: seq<Byte>, ghost c0: nat, ghost parts0: seq<seq<Byte>>)
      returns (r: Step<Blob>)
      requires stack == [] && c0 + 2 <= count && composer.parts == parts0 && h0 == Flatten(parts0)
      requires CallK(Opts(), SizeP, stk0, h0, chunk, c0) == Got(Val(ASize(size)), count)
      modifies this`count, this`stack, composer`parts
      decreases Measure(), 23
      ensures Settled(r, BlobK, c0, false) && (r.Pending? ==> stack != []) && !r.Threw?
      ensures r.Ready? ==> Measure() <= old(Measure())
      ensures r.Ready? && !r.value.Composed? ==> count >= c0 + 2
      ensures Holds(r, FrameK(Opts(), BlobF, stk0, h0, chunk, c0), parts0)
      ensures r.Pending? ==> Resumes(BlobF, stk0, h0, c0)
      ensures Tidy(r, Clean(stk0, parts0), true)
    {
      ghost var k := count;
      BlobSized(Opts(), stk0, h0, chunk, c0, size, k);
      match size {
      case Sized(n) =>
        if n > 0 {
          r := CaptureUncomposedBlob(n);
          if r.Pending? {
            NextResumes(Opts(), BlobF, stk0, h0, chunk, c0, Val(ASize(size)), k, stack, HeldBytes(), count);
          }
        } else if n == 0 {
          count := count + 2;
          r := Ready(EmptyBlob);
        } else {
          r := Ready(NullBlob);
        }
      case Streamed =>
        r := CaptureChunkedBlob();
        if r.Pending? {
          NextResumes(Opts(), BlobF, stk0, h0, chunk, c0, Val(ASize(size)), k, stack, HeldBytes(), count);
        }
      }
    }


    /**
     * `captureChunkedBlob`: fragments captured into the composer until one
     * that is empty or null; the cursor then steps back over the CR LF that
     * `captureBlob` skipped for it.
     */
    method CaptureChunkedBlob() returns (r: Step<Blob>)
      requires Chain(stack, BlobK) && 0 <= count
      modifies this`count, this`stack, composer`parts
      decreases Measure(), 22
      ensures Settled(r, BlobK, old(count), false) && (r.Pending? ==> stack != [] && Composing(stack)) && !r.Threw?
      ensures r.Ready? ==> r.value == Composed
      ensures Holds(r, FrameK(Opts(), ChunkedBlobF, old(stack), old(HeldBytes()), chunk, old(count)), old(composer.parts))
      ensures r.Pending? ==> Resumes(ChunkedBlobF, old(stack), old(HeldBytes()), old(count))
      ensures old(count) >= |chunk| && old(stack) != [] ==> Idle(r, old(count), old(stack), old(composer.parts), [ChunkedBlobF])
    {
      ghost var stk0, h0, c0 := stack, HeldBytes(), count;
      var e := CaptureChunks();
      if e.Ready? {
        count := count - 2;
        r := Ready(Composed);
      } else {
        ChainPush(stack, ChunkedBlobF, BlobK);
        ChunkedSuspend(Opts(), stack, HeldBytes(), chunk, count, stk0, h0, c0);
        ComposingPush(stack, ChunkedBlobF);
        stack := stack + [ChunkedBlobF];
        r := Pending;
      }
    }

    /**
     * The loop of `captureChunkedBlob`: `call(captureChunk)` while it gives
     * the composer, that is while fragments carry bytes. Its last outcome is
     * the empty or null fragment that ends the stream, or a suspension.
     */
    method CaptureChunks() returns (e: Step<Value>)
      requires Chain(stack, BlobK) && 0 <= count
      modifies this`count, this`stack, composer`parts
      decreases Measure(), 20
      ensures old(count) <= count && !e.Threw?
      ensures !e.Pending? ==> stack == []
      ensures e.Pending? ==> Chain(stack, BlobK) && stack != [] && Starved()
      ensures e.Ready? ==> e.value.ABlob? && !e.value.blob.Composed? && count >= old(count) + 2
      ensures var k := FrameK(Opts(), ChunkedBlobF, old(stack), old(HeldBytes()), chunk, old(count));
              (e.Ready? ==> k == Got(Held(Composed, HeldBytes()), count - 2)) &&
              (e.Pending? ==> k.Short? && ChunkedFrom(Opts(), stack, HeldBytes(), chunk, count, old(stack), old(HeldBytes()), old(count)))
      ensures old(count) >= |chunk| && old(stack) != [] ==>
                e == Pending && count == old(count) && stack == old(stack) && composer.parts == old(composer.parts)
    {
      ghost var stk0, h0, c0 := stack, HeldBytes(), count;
      assert ChunkedFrom(Opts(), stack, HeldBytes(), chunk, count, stk0, h0, c0);
      while true
        invariant old(count) <= count && Chain(stack, BlobK)
        invariant count > old(count) ==> stack == []
        invariant ChunkedFrom(Opts(), stack, HeldBytes(), chunk, count, stk0, h0, c0)
        invariant Measure() <= old(Measure())
        decreases Measure()
        invariant old(count) >= |chunk| ==> count == old(count) && stack == old(stack) && composer.parts == old(composer.parts)
      {
        e := NextChunk(stk0, h0, c0);
        if !(e.Ready? && e.value.blob.Composed?) {
          return;
        }
      }
    }

    /** One `call(captureChunk)` of the loop above, read against the stream resumed at `c0`. */
    method NextChunk(ghost stk0: seq<Frame>, ghost h0: seq<Byte>, ghost c0: nat) returns (e: Step<Value>)
      requires Chain(stack, BlobK) && 0 <= count
      requires ChunkedFrom(Opts(), stack, HeldBytes(), chunk, count, stk0, h0, c0)
      modifies this`count, this`stack, composer`parts
      decreases Measure(), 18
      ensures old(count) <= count && Chain(stack, BlobK) && !e.Threw?
      ensures !e.Pending? ==> stack == []
      ensures e.Pending? ==> stack != [] && Starved()
      ensures e.Ready? ==> e.value.ABlob? && Measure() < old(Measure())
      ensures e.Ready? && !e.value.blob.Composed? ==> count >= old(count) + 2
      ensures old(count) >= |chunk| && old(stack) != [] ==>
                e == Pending && count == old(count) && stack == old(stack) && composer.parts == old(composer.parts)
      ensures e.Ready? && e.value.blob.Composed? ==> ChunkedFrom(Opts(), stack, HeldBytes(), chunk, count, stk0, h0, c0)
      ensures var k := FrameK(Opts(), ChunkedBlobF, stk0, h0, chunk, c0);
              (e.Ready? && !e.value.blob.Composed? ==> k == Got(Held(Composed, HeldBytes()), count - 2)) &&
              (e.Pending? ==> k.Short? && ChunkedFrom(Opts(), stack, HeldBytes(), chunk, count, stk0, h0, c0))
    {
      ghost var stk1, h1, c1 := stack, HeldBytes(), count;
      e := Call(ChunkP);
      if e.Ready? && e.value.blob.Composed? {
        ChunkedNext(Opts(), stk1, h1, chunk, c1, HeldBytes(), count, stk0, h0, c0);
      } else {
        ChunkedHere(Opts(), stk1, h1, chunk, c1, stk0, h0, c0);
        if e.Pending? {
          ChunkedPend(Opts(), stack, HeldBytes(), chunk, count, stk1, h1, c1, stk0, h0, c0);
        }
      }
    }

    /** `captureChunk`: skips the `;` of a fragment header, then captures the fragment. */
    method CaptureChunk() returns (r: Step<Blob>)
      requires stack == [] && 0 <= count
      modifies this`count, this`stack, composer`parts
      decreases Measure(), 12
      ensures Settled(r, BlobK, old(count), false) && (r.Pending? ==> stack != []) && !r.Threw?
      ensures r.Ready? ==> Measure() < old(Measure())
      ensures r.Ready? && !r.value.Composed? ==> count >= old(count) + 2
      ensures Holds(r, ReadHeld(old(HeldBytes()), RefChunk(chunk, old(count))), old(composer.parts))
      ensures r.Pending? ==> Resumes(BlobF, [], old(HeldBytes()), old(count) + 1)
      ensures Tidy(r, old(composer.parts) == [], true)
    {
      ghost var h0, c0 := HeldBytes(), count;
      ChunkFresh(Opts(), h0, chunk, c0);
      assert Chain([], SizeK) && !Composing([]);
      count := count + 1;
      r := CaptureBlob();
    }

    /** `remainingBytes()`: negative once a routine has skipped past the end of the buffer. */
    function RemainingBytes(): int
      reads this
    {
      |chunk| - count
    }

    /** `done()`: every byte consumed and no routine suspended. */
    predicate Done()
      reads this
    {
      RemainingBytes() == 0 && stack == []
    }

    /** `reset()`: an empty buffer, the cursor at 0, no frames and no parts. */
    method Reset()
      modifies this`chunk, this`count, this`stack, this`received, this`offset, this`origin, composer`parts
      ensures chunk == EmptyBuffer && count == 0 && stack == [] && composer.parts == []
      ensures Valid() && received == [] && origin == 0 && Done()
    {
      chunk := EmptyBuffer;
      count := 0;
      stack := [];
      received := [];
      offset := 0;
      origin := 0;
      composer.Clear();
      ReadsRestart(Opts(), HeldBytes(), received, 0);
    }

    /**
     * `appendChunk(x)`: with unread bytes left the new bytes are appended;
     * otherwise the buffer is replaced and the cursor rebased, so that any
     * overshoot past the old end is skipped in the new bytes. Either way the
     * cursor keeps its place among all the bytes received.
     */
    method AppendChunk(x: seq<Byte>)
      requires Valid()
      modifies this`chunk, this`count, this`received, this`offset
      ensures Valid() && received == old(received) + x
      ensures offset + count == old(offset + count)
      ensures RemainingBytes() == old(RemainingBytes()) + |x|
      ensures old(count) <= old(|chunk|) ==> chunk[count..] == old(chunk[count..]) + x
      ensures old(count) < old(|chunk|) ==> chunk == old(chunk) + x && count == old(count)
      ensures old(count) >= old(|chunk|) ==> chunk == x && count == old(count) - old(|chunk|)
    {
      ghost var rec0, at0 := received, offset + count;
      var s := |chunk|;
      received := received + x;
      if count < s {
        chunk := Concat(chunk, x);
      } else {
        count := count - s;
        offset := offset + s;
        chunk := x;
      }
      ExtendedValid(rec0, x, at0);
    }

    /** The same stack reads the same reply once bytes are appended to the input. */
    lemma ExtendedValid(rec0: seq<Byte>, x: seq<Byte>, at0: nat)
      requires 0 <= count && Chain(stack, ReplyK) && Clean(stack, composer.parts)
      requires offset + |chunk| == |received| && chunk == received[offset..]
      requires received == rec0 + x && at0 == offset + count
      requires ReadsFrom(Opts(), stack, HeldBytes(), rec0, at0, origin)
      ensures Valid()
    {
      ReadsExtended(Opts(), stack, HeldBytes(), rec0, x, at0, origin);
    }

    /** The reply `call(parse)` gives, as `process()` returns it. */
    static function ReplyStep(x: Step<Value>): Step<Reply>
      requires x.Ready? ==> Has(x.value, ReplyK)
    {
      match x
      case Ready(v) => Ready(AsReply(v))
      case Pending => Pending
      case Threw(e) => Threw(e)
    }

    /** What `call(parse)` did, on a stack that reads the reply from `start`, answers as that reading. */
    lemma Answered(x: Step<Value>, stk0: seq<Frame>, h0: seq<Byte>, c0: nat, parts0: seq<seq<Byte>>, start: nat)
      requires offset <= |received| && chunk == received[offset..]
      requires ReadsFrom(Opts(), stk0, h0, received, offset + c0, start)
      requires Follows(x, CallK(Opts(), ParseP, stk0, h0, chunk, c0), parts0)
      requires x.Ready? ==> Has(x.value, ReplyK)
      ensures Answers(ReplyStep(x), RefReply(Opts(), received, start, resp3))
    {
      ReadsChunk(Opts(), stk0, h0, received, offset, chunk, c0, start);
    }

    /** A suspension that reads as the stack it replaced keeps the machine valid. */
    lemma KeptValid(stk0: seq<Frame>, h0: seq<Byte>, c0: nat)
      requires 0 <= count && Chain(stack, ReplyK) && Clean(stack, composer.parts)
      requires offset + |chunk| == |received| && chunk == received[offset..]
      requires ReadsFrom(Opts(), stk0, h0, received, offset + c0, origin)
      requires Continues(ParseP, stk0, h0, c0)
      ensures Valid()
    {
      ReadsKept(Opts(), stack, HeldBytes(), count, stk0, h0, c0, received, offset, chunk, origin);
    }

    /** No frame, an empty composer and the next reply starting at the cursor: a valid machine. */
    lemma RestartValid()
      requires 0 <= count && stack == [] && composer.parts == [] && origin == offset + count
      requires offset + |chunk| == |received| && chunk == received[offset..]
      ensures Valid()
    {
      ReadsRestarted(Opts(), stack, HeldBytes(), received, offset + count, origin);
    }

    /**
     * `process()`: `call(parse)`. It answers what reading every byte
     * received, from where the reply started, gives — however those bytes
     * were split into chunks. A reply or an exception leaves no frame and an
     * empty composer, and the next reply starts at the cursor; `undefined`
     * means no data byte is under the cursor; with nothing left to read it
     * changes nothing at all.
     */
    method Process() returns (r: Step<Reply>)
      requires Valid()
      modifies this`count, this`stack, this`origin, composer`parts
      ensures Valid() && old(count) <= count
      ensures Answers(r, RefReply(Opts(), received, old(origin), resp3))
      ensures !r.Pending? ==> stack == [] && composer.parts == [] && origin == offset + count
      ensures r.Pending? ==> Starved() && origin == old(origin)
      ensures r.Ready? ==> Measure() < old(Measure())
      ensures old(count) >= |chunk| ==> Idle(r, old(count), old(stack), old(composer.parts), [])
    {
      ghost var stk0, h0, c0, parts0 := stack, HeldBytes(), count, composer.parts;
      var x := Call(ParseP);
      r := ReplyStep(x);
      Answered(x, stk0, h0, c0, parts0, origin);
      if r.Pending? {
        KeptValid(stk0, h0, c0);
      } else {
        origin := offset + count;
        RestartValid();
      }
    }
  }
}
