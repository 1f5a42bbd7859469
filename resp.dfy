/**
 * The values that flow through the resumable decoder of `src/resp3_parser.ts`:
 * decoded replies, the intermediate results of its helper routines, and the
 * continuation frames it leaves on its stack when it runs out of input.
 */
module Resp {
  import opened Utils

  /** Byte values the decoder compares against. */
  const CR: Byte := 0x0D
  const DigitZero: Byte := 0x30
  const Plus: Byte := 0x2B
  const Minus: Byte := 0x2D
  const Dot: Byte := 0x2E
  const Question: Byte := 0x3F
  const LetterT: Byte := 0x74

  /** The tag bytes of RESP2: `+ - : $ *`. */
  const Resp2Tags: set<Byte> := {0x2B, 0x2D, 0x3A, 0x24, 0x2A}

  /** The tag bytes RESP3 adds: `~ % _ # , ( ! > = |`. */
  const Resp3Tags: set<Byte> := {0x7E, 0x25, 0x5F, 0x23, 0x2C, 0x28, 0x21, 0x3E, 0x3D, 0x7C}

  /** A byte the dispatcher of that protocol version knows. */
  predicate IsTag(b: Byte, v3: bool)
  {
    b in Resp2Tags || (v3 && b in Resp3Tags)
  }

  /** The least length `new Array(s)` refuses: array lengths are below 2^32. */
  const ArrayLengthLimit: int := 0x1_0000_0000

  /** `Number.MAX_SAFE_INTEGER`. */
  const MaxSafeInteger: int := 0x1F_FFFF_FFFF_FFFF

  /** A key/value pair of a map reply (a `Hash` entry). */
  datatype Entry = Entry(key: Reply, value: Reply)

  /** What the decoder hands to its caller. */
  datatype Reply =
    | Str(text: string)                         // `+` line, or a decoded `$` payload
    | Int(n: int)                               // `:` while below `Number.MAX_SAFE_INTEGER`
    | BigInt(n: int)                            // `:` once the running value reaches it
    | BigNumber(token: string)                  // `(`: the ASCII digits, unconverted
    | Double(token: string)                     // `,`: the ASCII text, unconverted
    | Infinity(negative: bool)                  // `,inf` and `,-inf`
    | Bool(b: bool)                             // `#`
    | Null                                      // `_`, and negative sizes
    | Failure(message: string)                  // `-` and `!`
    | Bulk(bytes: seq<Byte>)                    // `$` payload when bulk decoding is off
    | Verbatim(format: string, content: seq<Byte>)  // `=`
    | List(items: seq<Reply>)                   // `*`
    | Set(items: seq<Reply>)                    // `~` (`Unordered`)
    | Push(items: seq<Reply>)                   // `>`
    | Map(entries: seq<Entry>)                  // `%` (`Hash`)
    | Attributed(attributes: seq<Entry>, reply: Reply)  // `|` followed by a reply

  /** A declared size: a number, or `NaN` for `?`. */
  datatype Size = Streamed | Sized(n: int)

  /** What `captureBlob` returns: the composer holding the payload, `''`, or `null`. */
  datatype Blob = Composed | EmptyBlob | NullBlob

  /** The exceptions the decoder can raise. */
  datatype Fault =
    | SyntaxError   // unknown tag byte
    | TypeError     // `hasAttributes(null)`
    | RangeError    // `new Array(s)` for a length of 2^32 or more

  /** A routine's outcome: `undefined` (suspended), a value, or an exception. */
  datatype Step<+T> = Pending | Ready(value: T) | Threw(fault: Fault)

  /** The array object an expression list fills in. */
  datatype Shape = ListS | SetS | PushS | EntryS

  /** The routine `call(proc)` runs when the stack is empty. */
  datatype Proc =
    | ParseP            // `parse`
    | Resp3P            // `parseResp3Unmapped`
    | StreamedReplyP    // `parseStreamedReply`
    | LineP             // `parseLine`
    | AsciiLineP        // `parseAsciiLine`
    | SizeP             // `parseSize`
    | BlobP             // `captureBlob`
    | ChunkP            // `captureChunk`
    | HashP             // `parseHash`
    | EntryP            // `parseEntry`
    | StreamedEntryP    // `parseStreamedEntry`

  /** A suspended routine together with the locals it pushed before itself. */
  datatype Frame =
    | FailureF                                      // parseFailure
    | IntF                                          // parseInt
    | BooleanF                                      // parseBoolean
    | DoubleF                                       // parseDouble
    | BigNumberF                                    // parseBigNumbers
    | BulkF                                         // parseBulk
    | BulkFailureF                                  // parseBulkFailure
    | VerbatimF                                     // parseFormatedBulk
    | AggregateF(shape: Shape)                      // parseList, parseUnordered, parsePush
    | HashF                                         // parseHash
    | AttributesF                                   // parseAttributes
    | WithAttributesF(attrs: seq<Entry>)            // parseWithAttributes
    | UnannotatedF                                  // parseResp3Unmapped after `|-1`
    | ExprListF(shape: Shape, items: seq<Reply>, s: int)      // parseExpressionList
    | StreamedListF(shape: Shape, items: seq<Reply>)          // parseStreamedExpressionList
    | EntryListF(entries: seq<Entry>, s: int)       // parseEntryList
    | StreamedEntriesF(entries: seq<Entry>)         // parseStreamedEntryList
    | SizeF                                         // parseSize
    | Uint32F(acc: int)                             // parseUint32
    | LineF                                         // parseLine
    | AsciiLineF(text: string)                      // parseAsciiLineBytes
    | DecimalsF(i: int, sign: int)                  // parseDecimals
    | BigDecimalsF(i: int, sign: int)               // parseBigIntDecimals
    | BlobF                                         // captureBlob
    | UncomposedBlobF(rest: nat)                    // captureUncomposedBlob
    | ChunkedBlobF                                  // captureChunkedBlob

  /** Everything `call` can hand back, whichever routine it resumed. */
  datatype Value =
    | AReply(reply: Reply)
    | AText(text: string)
    | ASize(size: Size)
    | ABlob(blob: Blob)
    | AnEntry(entry: Entry)

  /** The kinds of value the routines produce. */
  datatype Kind = ReplyK | MapK | TextK | AsciiTextK | SizeK | BlobK | EntryK

  /** A value of kind `k` is acceptable where `expected` is: a map or a string is a reply. */
  predicate Fits(k: Kind, expected: Kind)
  {
    k == expected || (expected == ReplyK && (k == MapK || k == TextK))
  }

  predicate Has(v: Value, k: Kind)
  {
    match k
    case ReplyK => v.AReply? || v.AText?
    case MapK => v.AReply? && (v.reply.Map? || v.reply.Null?)
    case TextK => v.AText?
    case AsciiTextK => v.AText?
    case SizeK => v.ASize?
    case BlobK => v.ABlob?
    case EntryK => v.AnEntry?
  }

  /** A value usable as a reply is one: a string is a simple string. */
  function AsReply(v: Value): (r: Reply)
    requires Has(v, ReplyK)
    ensures v.AText? ==> r == Str(v.text)
    ensures v.AReply? ==> r == v.reply
  {
    if v.AText? then Str(v.text) else v.reply
  }

  /** The kind of value `call(proc)` returns. */
  function Expected(d: Proc): Kind
  {
    match d
    case ParseP => ReplyK
    case Resp3P => ReplyK
    case StreamedReplyP => ReplyK
    case LineP => TextK
    case AsciiLineP => AsciiTextK
    case SizeP => SizeK
    case BlobP => BlobK
    case ChunkP => BlobK
    case HashP => MapK
    case EntryP => EntryK
    case StreamedEntryP => EntryK
  }

  /** The kind of value a resumed frame's routine returns. */
  function Produces(f: Frame): Kind
  {
    match f
    case ExprListF(shape, _, _) => if shape == EntryS then EntryK else ReplyK
    case HashF => MapK
    case EntryListF(_, _) => MapK
    case StreamedEntriesF(_) => MapK
    case SizeF => SizeK
    case Uint32F(_) => SizeK
    case LineF => TextK
    case AsciiLineF(_) => AsciiTextK
    case BlobF => BlobK
    case UncomposedBlobF(_) => BlobK
    case ChunkedBlobF => BlobK
    case _ => ReplyK
  }

  /**
   * The kind of value the frame's routine asks `call` for as soon as it
   * resumes; `None` for routines that read the buffer themselves.
   */
  function Callee(f: Frame): Option<Kind>
  {
    match f
    case FailureF => Some(TextK)
    case DoubleF => Some(AsciiTextK)
    case BigNumberF => Some(AsciiTextK)
    case BulkF => Some(BlobK)
    case BulkFailureF => Some(BlobK)
    case VerbatimF => Some(BlobK)
    case AggregateF(_) => Some(SizeK)
    case HashF => Some(SizeK)
    case AttributesF => Some(MapK)
    case WithAttributesF(_) => Some(ReplyK)
    case ExprListF(_, _, _) => Some(ReplyK)
    case StreamedListF(_, _) => Some(ReplyK)
    case EntryListF(_, _) => Some(EntryK)
    case StreamedEntriesF(_) => Some(EntryK)
    case BlobF => Some(SizeK)
    case ChunkedBlobF => Some(BlobK)
    case _ => None
  }

  /** The locals a frame carries are ones its routine pushes. */
  predicate FrameOk(f: Frame)
  {
    match f
    case AggregateF(shape) => shape != EntryS
    case StreamedListF(shape, _) => shape != EntryS
    case ExprListF(shape, items, s) => |items| < s && (shape == EntryS ==> s == 2)
    case EntryListF(entries, s) => |entries| < s
    case UncomposedBlobF(rest) => rest > 0
    case DecimalsF(_, sign) => sign == 1 || sign == -1
    case BigDecimalsF(_, sign) => sign == 1 || sign == -1
    case _ => true
  }

  /**
   * Frame `i` sits where it may: its locals are consistent, the bottom frame
   * either reads the buffer itself or may suspend with nothing under it, and
   * every other frame waits on a value of the kind the frame below yields.
   */
  predicate Sits(stack: seq<Frame>, i: int)
    requires 0 <= i < |stack|
  {
    FrameOk(stack[i]) &&
    if i == 0 then Callee(stack[0]).None? || Bare(stack[0])
    else match Callee(stack[i])
      case None => false
      case Some(c) => Fits(Produces(stack[i - 1]), c)
  }

  /**
   * The stack is one chain of suspended routines: the top frame yields a value
   * of kind `k`, and the frames under it are the chain of the routine it was
   * waiting on when it suspended (nothing under a routine that reads the buffer
   * itself).
   */
  predicate Chain(stack: seq<Frame>, k: Kind)
  {
    (forall i | 0 <= i < |stack| :: Sits(stack, i)) &&
    (stack != [] ==> Fits(Produces(stack[|stack| - 1]), k))
  }

  /**
   * Routines that can suspend with nothing under them: the callee they wait on
   * may give up without pushing anything (the dispatcher with no tag byte), or
   * the loop never called it because no byte was available.
   */
  predicate Bare(f: Frame)
  {
    f.ExprListF? || f.StreamedListF? || f.StreamedEntriesF? || f.WithAttributesF?
  }

  /** The frames under the one just popped fit what that frame's routine asks for. */
  predicate ChainBelow(stack: seq<Frame>, c: Option<Kind>)
  {
    match c
    case None => stack == []
    case Some(k) => Chain(stack, k)
  }

  /** A frame of a routine that reads the buffer itself is a chain on its own. */
  lemma LeafChain(f: Frame, k: Kind)
    requires FrameOk(f) && Callee(f).None? && Fits(Produces(f), k)
    ensures Chain([f], k)
  {
    assert Sits([f], 0);
  }

  /** A chain accepted where `k` is expected is accepted wherever `k` fits. */
  lemma ChainWidens(stack: seq<Frame>, k: Kind, wider: Kind)
    requires Chain(stack, k) && Fits(k, wider)
    ensures Chain(stack, wider)
  {
  }

  /** Pushing a frame onto the chain of the routine it waits on gives a chain of its kind. */
  lemma ChainPush(below: seq<Frame>, f: Frame, k: Kind)
    requires FrameOk(f) && Fits(Produces(f), k)
    requires ChainBelow(below, Callee(f)) && (below == [] ==> Callee(f).None? || Bare(f))
    ensures Chain(below + [f], k)
  {
    var s := below + [f];
    forall i | 0 <= i < |s|
      ensures Sits(s, i)
    {
      if i < |below| {
        assert Sits(below, i);
        assert s[i] == below[i];
        if i > 0 {
          assert s[i - 1] == below[i - 1];
        }
      } else {
        assert s[i] == f;
        if i > 0 {
          assert s[i - 1] == below[|below| - 1];
        }
      }
    }
  }

  /** An expression list suspended over the chain of the reply it waits on. */
  lemma ChainPushSlots(below: seq<Frame>, shape: Shape, items: seq<Reply>, s: int)
    requires Chain(below, ReplyK) && |items| < s && (shape == EntryS ==> s == 2)
    ensures Chain(below + [ExprListF(shape, items, s)], Produces(ExprListF(shape, items, s)))
  {
    ChainPush(below, ExprListF(shape, items, s), Produces(ExprListF(shape, items, s)));
  }

  /** A frame waiting on a reply, suspended over the chain of that reply. */
  lemma ChainPushOnReply(below: seq<Frame>, f: Frame, k: Kind)
    requires Chain(below, ReplyK) && FrameOk(f) && Callee(f) == Some(ReplyK) && Fits(Produces(f), k)
    requires below == [] ==> Bare(f)
    ensures Chain(below + [f], k)
  {
    ChainPush(below, f, k);
  }

  /** Popping the top frame of a chain leaves the chain that frame waits on. */
  lemma ChainPop(stack: seq<Frame>, k: Kind)
    requires Chain(stack, k) && stack != []
    ensures var top := stack[|stack| - 1];
            FrameOk(top) && Fits(Produces(top), k) &&
            ChainBelow(stack[..|stack| - 1], Callee(top)) &&
            (stack[..|stack| - 1] == [] ==> Callee(top).None? || Bare(top))
  {
    var n := |stack| - 1;
    var rest := stack[..n];
    assert Sits(stack, n);
    if Callee(stack[n]).Some? {
      forall i | 0 <= i < |rest|
        ensures Sits(rest, i)
      {
        assert Sits(stack, i);
        assert rest[i] == stack[i];
        if i > 0 {
          assert rest[i - 1] == stack[i - 1];
        }
      }
    }
  }

  /** The frames of routines that push fragments onto the blob composer. */
  predicate Composes(f: Frame)
  {
    f.LineF? || f.UncomposedBlobF? || f.ChunkedBlobF?
  }

  /** Some suspended routine of the stack has fragments in the composer. */
  predicate Composing(stack: seq<Frame>)
  {
    stack != [] && (Composes(stack[|stack| - 1]) || Composing(stack[..|stack| - 1]))
  }

  /**
   * The composer holds fragments only for a suspended routine that pushed
   * them; a reply starts with an empty composer.
   */
  predicate Clean(stack: seq<Frame>, parts: seq<seq<Byte>>)
  {
    parts == [] || Composing(stack)
  }

  lemma ComposingPush(stack: seq<Frame>, f: Frame)
    ensures Composing(stack + [f]) == (Composes(f) || Composing(stack))
  {
    assert (stack + [f])[..|stack|] == stack;
  }

  /** A chain for a size or an ASCII line is one frame that composes nothing. */
  lemma ChainNotComposing(stack: seq<Frame>, k: Kind)
    requires Chain(stack, k) && (k == SizeK || k == AsciiTextK)
    ensures !Composing(stack)
  {
    if stack != [] {
      var n := |stack| - 1;
      assert Sits(stack, n);
      if n > 0 {
        assert false;
      }
      assert stack[..n] == [];
    }
  }

  /** The same outcome with its value converted. */
  function MapStep<A, B>(x: Step<A>, f: A -> B): (r: Step<B>)
    ensures x.Ready? <==> r.Ready?
    ensures x.Ready? ==> r.value == f(x.value)
    ensures x.Pending? <==> r.Pending?
    ensures x.Threw? ==> r == Threw(x.fault)
  {
    match x
    case Pending => Pending
    case Ready(v) => Ready(f(v))
    case Threw(e) => Threw(e)
  }

  /** The array object a list-like routine fills, as a reply. */
  function Wrap(shape: Shape, items: seq<Reply>): (r: Reply)
    requires shape != EntryS
    ensures shape == ListS ==> r == List(items)
    ensures shape == SetS ==> r == Set(items)
    ensures shape == PushS ==> r == Push(items)
  {
    match shape
    case ListS => List(items)
    case SetS => Set(items)
    case PushS => Push(items)
  }

  /**
   * `ASCII[t[0]] + ASCII[t[1]] + ASCII[t[2]]` under JavaScript's `+`: a missing
   * or non-ASCII byte reads as `undefined`, and `undefined + undefined` is `NaN`.
   */
  function FormatOf(t: seq<Byte>): string
  {
    var a, b, c := AsciiLookup(At(t, 0)), AsciiLookup(At(t, 1)), AsciiLookup(At(t, 2));
    if a.None? && b.None? then AppendJsNaN(c)
    else if a.Some? then AppendJs(AppendJs(a.value, b), c)
    else AppendJs("undefined" + b.value, c)
  }

  /** `NaN + v`: `NaN` for `undefined`, the text `"NaN"` joined to a string. */
  function AppendJsNaN(v: Option<string>): string
  {
    if v.Some? then "NaN" + v.value else "NaN"
  }

  /** A verbatim payload: the three format characters, a separator, then the content. */
  function VerbatimOf(t: seq<Byte>): (r: Reply)
    ensures r.Verbatim? && r.content == (if |t| >= 4 then t[4..] else [])
    ensures r.format == FormatOf(t)
  {
    Verbatim(FormatOf(t), if |t| >= 4 then t[4..] else [])
  }

  /** A byte read with JavaScript truthiness: present and not zero. */
  predicate Truthy(x: Option<Byte>)
  {
    x.Some? && x.value != 0
  }
}
