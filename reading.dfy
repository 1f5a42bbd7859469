/**
 * What the decoder's state reads from all the bytes it has been given. The
 * suspended stack, resumed where the cursor stands among those bytes, reads
 * the reply that the reference reading finds from where that reply starts,
 * on every extension of the input: so `process()` returns the same replies
 * however the input is cut into chunks.
 */
module Reading {
  import opened Utils
  import opened Resp
  import opened Reference
  import opened Rebase
  import opened Continuation
  import opened ResumedRebase
  import opened Resumption
  import opened Suspension

  /**
   * The stack `stk`, resumed at position `at` of `rec` with the composer
   * holding `h`, reads on every extension of `rec` the reply that starts at
   * `start`.
   */
  ghost predicate ReadsFrom(opts: Options, stk: seq<Frame>, h: seq<Byte>, rec: seq<Byte>, at: nat, start: nat)
  {
    forall more :: View(CallK(opts, ParseP, stk, h, rec + more, at)) == ReadReply(RefReply(opts, rec + more, start, opts.resp3))
  }

  /** The reading `ReadsFrom` promises, on the bytes received so far. */
  lemma ReadsNow(opts: Options, stk: seq<Frame>, h: seq<Byte>, rec: seq<Byte>, at: nat, start: nat)
    requires ReadsFrom(opts, stk, h, rec, at, start)
    ensures View(CallK(opts, ParseP, stk, h, rec, at)) == ReadReply(RefReply(opts, rec, start, opts.resp3))
  {
    assert rec + [] == rec;
  }

  /** Resumed on the bytes `b` after the first `off` of `rec`, the stack reads the reply, every position `off` earlier. */
  lemma ReadsChunk(opts: Options, stk: seq<Frame>, h: seq<Byte>, rec: seq<Byte>, off: nat, b: seq<Byte>, c: nat, start: nat)
    requires off <= |rec| && b == rec[off..]
    requires ReadsFrom(opts, stk, h, rec, off + c, start)
    ensures Moved(View(CallK(opts, ParseP, stk, h, b, c)), off) == ReadReply(RefReply(opts, rec, start, opts.resp3))
  {
    var p := rec[..off];
    assert rec == p + b && |p| == off;
    ReadsNow(opts, stk, h, rec, off + c, start);
    CallMoves(opts, ParseP, stk, h, p, b, c);
    ViewMoved(CallK(opts, ParseP, stk, h, b, c), off);
  }

  /** What `process()` answers: the reply the reading finds, where it ends, or how it fails. */
  lemma ReadsAnswer(opts: Options, stk: seq<Frame>, h: seq<Byte>, rec: seq<Byte>, off: nat, b: seq<Byte>, c: nat, start: nat)
    requires off <= |rec| && b == rec[off..]
    requires ReadsFrom(opts, stk, h, rec, off + c, start)
    requires var o := CallK(opts, ParseP, stk, h, b, c); o.Got? ==> o.value.Val? && Has(o.value.value, ReplyK)
    ensures var o := CallK(opts, ParseP, stk, h, b, c);
            match RefReply(opts, rec, start, opts.resp3)
            case Got(v, n) => o.Got? && AsReply(o.value.value) == v && o.next + off == n
            case Short => o.Short?
            case Fail(e) => o == Fail(e)
  {
    ReadsChunk(opts, stk, h, rec, off, b, c, start);
  }

  /** A stack that reads as the one it replaced, on the bytes `b` after the first `off` of `rec`, reads the same reply. */
  lemma ReadsKept(opts: Options, stk: seq<Frame>, h: seq<Byte>, c: nat, stk0: seq<Frame>, h0: seq<Byte>, c0: nat,
                  rec: seq<Byte>, off: nat, b: seq<Byte>, start: nat)
    requires off <= |rec| && b == rec[off..]
    requires ReadsFrom(opts, stk0, h0, rec, off + c0, start)
    requires CallSame(opts, ParseP, stk, h, b, c, stk0, h0, c0)
    ensures ReadsFrom(opts, stk, h, rec, off + c, start)
  {
    var p := rec[..off];
    assert rec == p + b;
    forall more
      ensures View(CallK(opts, ParseP, stk, h, rec + more, off + c)) ==
              ReadReply(RefReply(opts, rec + more, start, opts.resp3))
    {
      assert rec + more == p + (b + more);
      CallMoves(opts, ParseP, stk, h, p, b + more, c);
      CallMoves(opts, ParseP, stk0, h0, p, b + more, c0);
      ViewMoved(CallK(opts, ParseP, stk, h, b + more, c), |p|);
      ViewMoved(CallK(opts, ParseP, stk0, h0, b + more, c0), |p|);
      assert View(CallK(opts, ParseP, stk0, h0, rec + more, off + c0)) ==
             ReadReply(RefReply(opts, rec + more, start, opts.resp3));
    }
  }

  /** With no frame, the next reply starts where the cursor is. */
  lemma ReadsRestart(opts: Options, h: seq<Byte>, rec: seq<Byte>, at: nat)
    ensures ReadsFrom(opts, [], h, rec, at, at)
  {
    forall more
      ensures View(CallK(opts, ParseP, [], h, rec + more, at)) == ReadReply(RefReply(opts, rec + more, at, opts.resp3))
    {
      ViewReply(RefReply(opts, rec + more, at, opts.resp3));
    }
  }

  /** `ReadsRestart` for an empty stack at the cursor. */
  lemma ReadsRestarted(opts: Options, stk: seq<Frame>, h: seq<Byte>, rec: seq<Byte>, at: nat, start: nat)
    requires stk == [] && at == start
    ensures ReadsFrom(opts, stk, h, rec, at, start)
  {
    ReadsRestart(opts, h, rec, at);
  }

  /** Bytes appended to the input are one more extension of it. */
  lemma ReadsExtended(opts: Options, stk: seq<Frame>, h: seq<Byte>, rec: seq<Byte>, x: seq<Byte>, at: nat, start: nat)
    requires ReadsFrom(opts, stk, h, rec, at, start)
    ensures ReadsFrom(opts, stk, h, rec + x, at, start)
  {
    forall more
      ensures View(CallK(opts, ParseP, stk, h, (rec + x) + more, at)) == ReadReply(RefReply(opts, (rec + x) + more, start, opts.resp3))
    {
      assert (rec + x) + more == rec + (x + more);
    }
  }
}
