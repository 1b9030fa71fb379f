/** The block filter behind a delay line that hides the blocks from the caller (JFastFIRFilter). */
module FastFir {
  import SlowFir
  import opened Options
  import opened Convolution
  import opened Samples
  import opened RealTransform
  import opened FastConvolution
  import opened Factor
  import opened Complex

  /** Item k of what the filter promises: nfft zeros, then the direct form's output. */
  ghost function Delayed(imp: seq<real>, nfft: nat, x: seq<real>, k: int): real {
    if k < nfft then 0.0 else Direct(imp, x, k - nfft)
  }

  /** The answers to the samples of input, after the samples of past. */
  ghost function Answers(imp: seq<real>, nfft: nat, past: seq<real>, input: seq<real>): (a: seq<real>)
    ensures |a| == |input|
  {
    seq(|input|, j requires 0 <= j < |input| => Delayed(imp, nfft, past + input, |past| + j))
  }

  /** Later samples do not change an item that is already due. */
  lemma DelayedIsCausal(imp: seq<real>, nfft: nat, x: seq<real>, y: seq<real>, k: nat)
    requires k >= nfft ==> k - nfft + |imp| - 1 < |x|
    ensures Delayed(imp, nfft, x + y, k) == Delayed(imp, nfft, x, k)
  {
    if k >= nfft {
      DirectSees(imp, x + y, x, k - nfft, k - nfft);
    }
  }

  /** The answers do not depend on how the stream is cut into calls. */
  lemma CutAnywhere(imp: seq<real>, nfft: nat, past: seq<real>, a: seq<real>, b: seq<real>)
    requires 1 <= |imp| <= nfft
    ensures Answers(imp, nfft, past, a + b) == Answers(imp, nfft, past, a) + Answers(imp, nfft, past + a, b)
  {
    hide Delayed;
    var whole, cut := Answers(imp, nfft, past, a + b), Answers(imp, nfft, past, a) + Answers(imp, nfft, past + a, b);
    assert past + a + b == past + (a + b);
    forall j | 0 <= j < |a + b| ensures whole[j] == cut[j] {
      if j < |a| {
        DelayedIsCausal(imp, nfft, past + a, b, |past| + j);
        assert Answers(imp, nfft, past, a)[j] == Delayed(imp, nfft, past + a, |past| + j);
      } else {
        assert cut[j] == Answers(imp, nfft, past + a, b)[j - |a|]
          == Delayed(imp, nfft, past + a + b, |past + a| + (j - |a|));
      }
    }
  }

  /** The n items that are due after the samples of x. */
  ghost function Due(imp: seq<real>, nfft: nat, x: seq<real>, n: nat): (d: seq<real>)
    ensures |d| == n
  {
    seq(n, i requires 0 <= i < n => Delayed(imp, nfft, x, |x| + i))
  }

  /** The delay line is exact: what waits in the block filter and what waits in the remainder add up to nfft. */
  ghost predicate Line(imp: seq<real>, nfft: nat, x: seq<real>, waitingIn: seq<real>, waitingOut: seq<real>) {
    && |waitingIn| < nfft && |waitingOut| + |waitingIn| == nfft
    && |waitingIn| <= |x| && waitingIn == x[|x| - |waitingIn|..]
    && (|x| > |waitingIn| ==> |waitingIn| >= |imp| - 1)
    && waitingOut == Due(imp, nfft, x, |waitingOut|)
  }

  /** Before any sample nfft zeros are due. */
  lemma LineStarts(imp: seq<real>, nfft: nat, waitingIn: seq<real>, zeros: seq<real>)
    requires nfft >= 1 && waitingIn == [] && |zeros| == nfft && forall i :: 0 <= i < nfft ==> zeros[i] == 0.0
    ensures Line(imp, nfft, [], waitingIn, zeros)
  {
    hide Direct;
    var none: seq<real> := [];
    var due := Due(imp, nfft, none, nfft);
    forall i | 0 <= i < nfft ensures zeros[i] == due[i] {
      assert due[i] == Delayed(imp, nfft, none, i);
    }
  }

  /** New samples go in, as many items as there were samples come out, and the line is exact again. */
  lemma LineAdvances(imp: seq<real>, nfft: nat, past: seq<real>, input: seq<real>, waitingIn: seq<real>,
                     waitingOut: seq<real>, items: seq<real>, leftIn: seq<real>, answers: seq<real>, leftOut: seq<real>)
    requires 1 <= |imp| <= nfft && Line(imp, nfft, past, waitingIn, waitingOut)
    requires |items| + |leftIn| == |waitingIn| + |input| && |leftIn| < nfft && (|items| > 0 ==> |leftIn| >= |imp| - 1)
    requires leftIn == (waitingIn + input)[|items|..]
    requires forall k :: 0 <= k < |items| ==> items[k] == Direct(imp, waitingIn + input, k)
    requires |answers| == |input| && answers + leftOut == waitingOut + items
    ensures Line(imp, nfft, past + input, leftIn, leftOut) && answers == Answers(imp, nfft, past, input)
  {
    hide Delayed, Direct;
    var x, due := past + input, waitingOut + items;
    ItemsAreDue(imp, nfft, past, input, waitingIn, waitingOut, items);
    assert answers == due[..|input|] && leftOut == due[|input|..];
    assert waitingIn + input == x[|past| - |waitingIn|..];
    assert leftIn == x[|x| - |leftIn|..];
  }

  lemma ItemsAreDue(imp: seq<real>, nfft: nat, past: seq<real>, input: seq<real>, waitingIn: seq<real>,
                    waitingOut: seq<real>, items: seq<real>)
    requires 1 <= |imp| <= nfft && Line(imp, nfft, past, waitingIn, waitingOut)
    requires forall k :: 0 <= k < |items| ==> items[k] == Direct(imp, waitingIn + input, k)
    ensures forall i :: 0 <= i < |waitingOut + items| ==>
      (waitingOut + items)[i] == Delayed(imp, nfft, past + input, |past| + i)
  {
    hide Delayed, Direct;
    var x, due, fed := past + input, waitingOut + items, waitingIn + input;
    assert fed == x[|past| - |waitingIn|..];
    forall i | 0 <= i < |due| ensures due[i] == Delayed(imp, nfft, x, |past| + i) {
      ItemIsDue(imp, nfft, past, x, fed, |waitingIn|, i, due[i]);
    }
  }

  /** A flush leaves the line exact only if it wrote nothing. */
  lemma LineFlushed(imp: seq<real>, nfft: nat, past: seq<real>, waitingIn: seq<real>, waitingOut: seq<real>,
                    items: seq<real>)
    requires Line(imp, nfft, past, waitingIn, waitingOut)
    ensures Line(imp, nfft, past, waitingIn, waitingOut + items) <==> items == []
  {
    hide Delayed;
    if items == [] {
      assert waitingOut + items == waitingOut;
    }
  }

  /** pow(2.0, ceil(log2(n))): the least power of two that is at least n; 0 for 0, whose logarithm is minus infinity. */
  function RoundedUp(n: nat): nat {
    if n <= 1 then n else 2 * RoundedUp((n + 1) / 2)
  }

  lemma {:induction false} RoundedUpFits(n: nat)
    ensures n <= RoundedUp(n) && (n > 0 ==> RoundedUp(n) < 2 * n)
  {
    if n > 1 {
      RoundedUpFits((n + 1) / 2);
    }
  }

  lemma {:induction false} RoundedUpPower(n: nat) returns (e: nat)
    requires n > 0
    ensures RoundedUp(n) == Pow2(e)
  {
    e := 0;
    if n > 1 {
      e := RoundedUpPower((n + 1) / 2);
      e := e + 1;
    }
  }

  /** Rounding again changes nothing. */
  lemma {:induction false} RoundedTwice(n: nat)
    ensures RoundedUp(RoundedUp(n)) == RoundedUp(n)
  {
    if n > 1 {
      RoundedUpFits((n + 1) / 2);
      RoundedTwice((n + 1) / 2);
      assert (RoundedUp(n) + 1) / 2 == RoundedUp((n + 1) / 2);
    }
  }

  /** The length of the transforms for a kernel, when n is asked for. */
  function KernelLength(nKernel: nat, n: nat): nat
    requires nKernel >= 1
  {
    LengthFor(nKernel, RoundedUp(n))
  }

  lemma AskedLength(nKernel: nat, n: nat)
    requires nKernel >= 1
    ensures KernelLength(nKernel, n) == LengthFor(nKernel, RoundedUp(n))
  {
  }

  class JFastFIRFilter {
    var nfft: nat
    var cfg: FastFirState
    var idxInbuf: nat
    var inbuf: array<real>
    var outbuf: array<real>
    var remainder: array<real>
    var remainderPtr: nat
    ghost var past: seq<real>  // the samples since the last reset
    ghost var imp: seq<real>
    ghost var twf: seq<Cpx>
    ghost var twi: seq<Cpx>

    ghost predicate Buffered()
      reads this
    {
      inbuf != outbuf && inbuf.Length == outbuf.Length
    }

    /** A block filter and its two buffers, before the delay line is set up. */
    ghost predicate HasKernel()
      reads this
    {
      Ready(cfg, imp, twf, twi) && nfft == cfg.nfft && Buffered()
    }

    ghost predicate Configured()
      reads this
    {
      && HasKernel() && remainder.Length == 2 * nfft
      && inbuf != remainder && outbuf != remainder && idxInbuf <= inbuf.Length
    }

    ghost predicate Valid()
      reads this, inbuf, remainder
    {
      && Configured() && remainderPtr <= remainder.Length
      && Line(imp, nfft, past, inbuf[..idxInbuf], remainder[..remainderPtr])
    }

    constructor (impulseResponse: seq<real>, n: nat, st: FastFirState, ghost twf: seq<Cpx>, ghost twi: seq<Cpx>)
      requires Ready(st, impulseResponse, twf, twi) && n == st.nfft
      ensures Valid() && fresh({inbuf, outbuf, remainder}) && past == [] && imp == impulseResponse && nfft == n
    {
      hide Ready, Line;
      ReadyFacts(st, impulseResponse, twf, twi);
      cfg, nfft := st, n;
      this.twf, this.twi, imp, past := twf, twi, impulseResponse, [];
      inbuf := new real[0](_ => 0.0);
      outbuf := new real[0](_ => 0.0);
      remainder := new real[2 * n](_ => 0.0);
      idxInbuf, remainderPtr := 0, n;
      new;
      LineStarts(imp, nfft, inbuf[..0], remainder[..n]);
    }

    /**
     * setKernel: an empty impulse response changes nothing; any other starts the delay line afresh, in good
     * order exactly when it is no longer than the transform. None where the allocator writes outside its buffer.
     */
    method SetKernel(impulseResponse: seq<real>, n: nat, fftcfg: FftrState, ifftcfg: FftrState,
                     ghost twf: seq<Cpx>, ghost twi: seq<Cpx>) returns (r: Option<nat>)
      requires Buffered()
      requires impulseResponse != [] ==>
        Opposite(fftcfg, ifftcfg, twf, twi) && 2 * fftcfg.substate.nfft == KernelLength(|impulseResponse|, n)
      modifies this
      ensures inbuf == old(inbuf) && outbuf == old(outbuf)
      ensures impulseResponse == [] ==> unchanged(this) && r == Some(nfft)
      ensures impulseResponse != [] ==>
        var length := KernelLength(|impulseResponse|, n);
        && (r.None? <==> |impulseResponse| > length + 1)
        && (r.Some? ==> r == Some(length) && nfft == length && past == [] && imp == impulseResponse && fresh(remainder))
        && (r.Some? ==> (Valid() <==> |impulseResponse| <= length))
    {
      hide Ready, Line, Opposite, KernelLength;
      if |impulseResponse| == 0 { return Some(nfft); }
      AskedLength(|impulseResponse|, n);
      var st := KissFastfirAlloc(impulseResponse, RoundedUp(n), fftcfg, ifftcfg, twf, twi);
      if st.None? { return None; }
      nfft, cfg := st.value.nfft, st.value;
      this.twf, this.twi, imp := twf, twi, impulseResponse;
      Reset();
      if Ready(cfg, imp, twf, twi) { ReadyFacts(cfg, imp, twf, twi); }
      r := Some(nfft);
    }

    /** setKernel without a length: four times the response, rounded up, always fits. */
    method SetKernelByRule(impulseResponse: seq<real>, fftcfg: FftrState, ifftcfg: FftrState,
                           ghost twf: seq<Cpx>, ghost twi: seq<Cpx>) returns (r: Option<nat>)
      requires Buffered()
      requires impulseResponse != [] ==>
        && Opposite(fftcfg, ifftcfg, twf, twi)
        && 2 * fftcfg.substate.nfft == KernelLength(|impulseResponse|, RoundedUp(4 * |impulseResponse|))
      modifies this
      ensures r.Some? && (impulseResponse == [] ==> unchanged(this))
      ensures impulseResponse != [] ==>
        Valid() && past == [] && imp == impulseResponse && 4 * |imp| <= nfft < 8 * |imp|
    {
      hide Ready, Line, Opposite;
      RoundedUpFits(4 * |impulseResponse|);
      RoundedUpFits(RoundedUp(4 * |impulseResponse|));
      RoundedTwice(4 * |impulseResponse|);
      r := SetKernel(impulseResponse, RoundedUp(4 * |impulseResponse|), fftcfg, ifftcfg, twf, twi);
    }

    method Reset()
      requires Buffered()
      modifies this
      ensures past == [] && fresh(remainder) && (old(HasKernel()) ==> Valid())
      ensures nfft == old(nfft) && cfg == old(cfg) && imp == old(imp) && twf == old(twf) && twi == old(twi)
      ensures inbuf == old(inbuf) && outbuf == old(outbuf)
    {
      hide Ready, Line;
      remainder := new real[nfft * 2](_ => 0.0);
      idxInbuf := 0;
      remainderPtr := nfft;
      past := [];
      if old(HasKernel()) {
        ReadyFacts(cfg, imp, twf, twi);
        LineStarts(imp, nfft, inbuf[..0], remainder[..nfft]);
      }
    }

    /**
     * Each sample of data is replaced by the filter's answer to it.
     * With no samples the block filter flushes instead and forgets that it did: the delay line survives
     * exactly when there was nothing to flush. ok is false where the flush count would be negative.
     */
    method Update(data: array<real>) returns (ok: bool)
      requires Valid() && data !in {inbuf, outbuf, remainder}
      modifies this, data, inbuf, outbuf, remainder
      ensures nfft == old(nfft) && imp == old(imp) && remainder == old(remainder)
      ensures (inbuf == old(inbuf) && outbuf == old(outbuf)) || (fresh(inbuf) && fresh(outbuf))
      ensures past == old(past) + old(data[..])
      ensures data.Length > 0 ==> ok && Valid()
      ensures data.Length > 0 ==> data[..] == Answers(imp, nfft, old(past), old(data[..]))
      ensures data.Length == 0 ==> ok == (old(idxInbuf) >= |imp| - 1)
      ensures data.Length == 0 ==> (ok && Valid() <==> old(idxInbuf) == |imp| - 1)
    {
      hide Direct, Ready, Answers, Line;
      ReadyFacts(cfg, imp, twf, twi);
      LineFacts(imp, nfft, past, inbuf[..idxInbuf], remainder[..remainderPtr]);
      ghost var input, waitingIn, waitingOut := data[..], inbuf[..idxInbuf], remainder[..remainderPtr];
      past := past + input;
      var written := Filter(data);
      if written.None? {
        return false;
      }
      ok := true;
      ghost var items, leftIn := outbuf[..written.value], inbuf[..idxInbuf];
      Serve(data, written.value);
      if data.Length > 0 {
        LineAdvances(imp, nfft, old(past), input, waitingIn, waitingOut, items, leftIn, data[..],
                     remainder[..remainderPtr]);
      } else {
        LineFlushed(imp, nfft, old(past), waitingIn, waitingOut, items);
        assert data[..] + remainder[..remainderPtr] == remainder[..remainderPtr];
        assert old(past) + input == old(past);
      }
    }

    /** The new samples go through the block filter. */
    method Filter(data: array<real>) returns (written: Option<nat>)
      requires Configured() && idxInbuf < nfft && data !in {inbuf, outbuf, remainder}
      modifies this`inbuf, this`outbuf, this`idxInbuf, inbuf, outbuf
      ensures Configured() && data !in {inbuf, outbuf, remainder}
      ensures (inbuf == old(inbuf) && outbuf == old(outbuf)) || (fresh(inbuf) && fresh(outbuf))
      ensures data.Length == 0 ==> idxInbuf == old(idxInbuf) && inbuf[..idxInbuf] == old(inbuf[..idxInbuf])
      ensures data.Length == 0 ==>
        written == (if idxInbuf >= |imp| - 1 then Some(idxInbuf - (|imp| - 1)) else None)
      ensures written.Some? ==> written.value <= outbuf.Length
      ensures data.Length > 0 ==>
        && written.Some? && written.value + idxInbuf == data.Length + old(idxInbuf) && idxInbuf < nfft
        && (written.value > 0 ==> idxInbuf >= |imp| - 1)
        && inbuf[..idxInbuf] == (old(inbuf[..idxInbuf]) + data[..])[written.value..]
        && forall k :: 0 <= k < written.value ==> outbuf[k] == Direct(imp, old(inbuf[..idxInbuf]) + data[..], k)
    {
      hide Direct, Ready;
      ReadyFacts(cfg, imp, twf, twi);
      ghost var fed := inbuf[..idxInbuf] + data[..];
      Store(data);
      var newOffset;
      written, newOffset := KissFastfir(cfg, inbuf, outbuf, data.Length, idxInbuf, imp, twf, twi);
      idxInbuf := newOffset;
    }

    /** The new samples are appended to what waits in inbuf, which grows when it must. */
    method Store(data: array<real>)
      requires Configured() && idxInbuf < nfft && data !in {inbuf, outbuf, remainder}
      modifies this`inbuf, this`outbuf, inbuf
      ensures Configured() && data !in {inbuf, outbuf, remainder}
      ensures idxInbuf + data.Length <= inbuf.Length
      ensures inbuf[..idxInbuf + data.Length] == old(inbuf[..idxInbuf]) + data[..]
      ensures (inbuf == old(inbuf) && outbuf == old(outbuf)) || (fresh(inbuf) && fresh(outbuf))
    {
      hide Ready;
      var Size := data.Length;
      if inbuf.Length - idxInbuf < Size {
        var grownIn := new real[Size + nfft](_ => 0.0);
        forall i | 0 <= i < inbuf.Length {
          grownIn[i] := inbuf[i];
        }
        var grownOut := new real[Size + nfft](_ => 0.0);
        forall i | 0 <= i < outbuf.Length {
          grownOut[i] := outbuf[i];
        }
        inbuf, outbuf := grownIn, grownOut;
      }
      forall i | 0 <= i < Size {
        inbuf[idxInbuf + i] := data[i];
      }
    }

    /** Answers come from the remainder first, then from the output buffer; what is left over becomes the remainder. */
    method Serve(data: array<real>, nwrite: nat)
      requires data != remainder && data != outbuf && outbuf != remainder
      requires remainderPtr <= remainder.Length && nwrite <= outbuf.Length
      requires data.Length <= remainderPtr + nwrite <= data.Length + remainder.Length
      modifies data, remainder, this`remainderPtr
      ensures remainderPtr == old(remainderPtr) + nwrite - data.Length <= remainder.Length
      ensures data[..] + remainder[..remainderPtr] == old(remainder[..remainderPtr] + outbuf[..nwrite])
    {
      ghost var r, o := remainder[..remainderPtr], outbuf[..nwrite];
      var currentwantednum := data.Length;
      var d := ServeRemainder(data);
      currentwantednum := currentwantednum - d;
      ghost var d1 := d;
      var numfromoutbuf := if currentwantednum <= nwrite then currentwantednum else nwrite;
      if numfromoutbuf > 0 {
        forall i | 0 <= i < numfromoutbuf {
          data[d + i] := outbuf[i];
        }
        currentwantednum := currentwantednum - numfromoutbuf;
        d := d + numfromoutbuf;
      }
      assert data[..] == r[..d1] + o[..numfromoutbuf];
      KeepLeftover(numfromoutbuf, nwrite);
      assert outbuf[numfromoutbuf..nwrite] == o[numfromoutbuf..];
      // some items would not have been changed: this should not happen
      if currentwantednum > 0 {
        assert false;
      }
      Regrouped(r, o, d1, numfromoutbuf);
    }

    /** What the caller did not take of the new items waits behind the remainder. */
    method KeepLeftover(taken: nat, nwrite: nat)
      requires taken <= nwrite <= outbuf.Length && outbuf != remainder
      requires remainderPtr + nwrite - taken <= remainder.Length
      modifies remainder, this`remainderPtr
      ensures remainderPtr == old(remainderPtr) + nwrite - taken
      ensures remainder[..remainderPtr] == old(remainder[..remainderPtr]) + outbuf[taken..nwrite]
    {
      if taken < nwrite && nwrite > 0 {
        forall i | 0 <= i < nwrite - taken {
          remainder[remainderPtr + i] := outbuf[taken + i];
        }
        remainderPtr := remainderPtr + (nwrite - taken);
      }
    }

    /** As much as possible comes from the remainder, whose rest moves to the front. */
    method ServeRemainder(data: array<real>) returns (d: nat)
      requires data != remainder && remainderPtr <= remainder.Length
      modifies data, remainder, this`remainderPtr
      ensures d == if data.Length <= old(remainderPtr) then data.Length else old(remainderPtr)
      ensures remainderPtr == old(remainderPtr) - d
      ensures data[..d] == old(remainder[..d])
      ensures remainder[..remainderPtr] == old(remainder[d..remainderPtr])
    {
      d := 0;
      var numfromremainder := if data.Length <= remainderPtr then data.Length else remainderPtr;
      if numfromremainder > 0 {
        forall i | 0 <= i < numfromremainder {
          data[i] := remainder[i];
        }
        d := numfromremainder;
        if numfromremainder < remainderPtr {
          remainderPtr := remainderPtr - numfromremainder;
          forall i | 0 <= i < remainderPtr {
            remainder[i] := remainder[numfromremainder + i];
          }
        } else {
          remainderPtr := 0;
        }
      }
    }
  }

  lemma Regrouped(r: seq<real>, o: seq<real>, d: nat, n: nat)
    requires d <= |r| && n <= |o| && (d == |r| || n == 0)
    ensures (r[..d] + o[..n]) + (r[d..] + o[n..]) == r + o
  {
  }

  lemma ReadyFacts(st: FastFirState, imp: seq<real>, twf: seq<Cpx>, twi: seq<Cpx>)
    requires Ready(st, imp, twf, twi)
    ensures st.nfft >= 2 && 1 <= |imp| <= st.nfft
  {
  }

  lemma LineFacts(imp: seq<real>, nfft: nat, x: seq<real>, waitingIn: seq<real>, waitingOut: seq<real>)
    requires Line(imp, nfft, x, waitingIn, waitingOut)
    ensures |waitingIn| < nfft && |waitingOut| + |waitingIn| == nfft
  {
  }

  /** Entry i of the remainder followed by the block filter's new items is the item due i samples from now. */
  lemma ItemIsDue(imp: seq<real>, nfft: nat, past: seq<real>, x: seq<real>, fed: seq<real>, offset: nat, i: nat,
                  v: real)
    requires 1 <= |imp| <= nfft && offset < nfft && offset <= |past| && past <= x
    requires |past| > offset ==> offset >= |imp| - 1
    requires fed == x[|past| - offset..]
    requires if i < nfft - offset then v == Delayed(imp, nfft, past, |past| + i)
             else v == Direct(imp, fed, i - (nfft - offset))
    ensures v == Delayed(imp, nfft, x, |past| + i)
  {
    hide Direct;
    if i < nfft - offset {
      DelayedIsCausal(imp, nfft, past, x[|past|..], |past| + i);
      assert past + x[|past|..] == x;
    } else {
      var k, e := i - (nfft - offset), |past| - offset;
      DirectSees(imp, fed, x, k, e + k);
    }
  }

  function Reversed(s: seq<real>): (r: seq<real>)
    ensures |r| == |s| && forall i :: 0 <= i < |s| ==> r[i] == s[|s| - 1 - i]
  {
    seq(|s|, i requires 0 <= i < |s| => s[|s| - 1 - i])
  }

  lemma {:induction false} TermsAreSum(cof: seq<real>, x: seq<real>, n: int, k: nat)
    requires k <= |cof|
    ensures SlowFir.Terms(cof, x, n, k) == RealSum(k, i => Product(Sample(x, n - (|cof| - 1) + i), Sample(cof, i)))
  {
    hide Product;
    if k > 0 {
      TermsAreSum(cof, x, n, k - 1);
    }
  }

  /** After its nfft zeros the fast filter is the slow one with the reversed kernel, nfft-N+1 samples later. */
  lemma FastIsSlowDelayed(imp: seq<real>, nfft: nat, x: seq<real>, k: nat)
    requires k >= nfft
    ensures Delayed(imp, nfft, x, k) == SlowFir.Fir(Reversed(imp), x, k - nfft + |imp| - 1)
  {
    hide Product;
    var N, t := |imp|, k - nfft;
    var slow := i => Product(Sample(x, t + N - 1 - (N - 1) + i), Sample(Reversed(imp), i));
    var fast := i => Product(Sample(imp, i), Sample(x, t + N - 1 - i));
    TermsAreSum(Reversed(imp), x, t + N - 1, N);
    RealSumExt(N, slow, i => Product(Sample(x, t + N - 1 - (|Reversed(imp)| - 1) + i), Sample(Reversed(imp), i)));
    RealSumReverse(N, fast);
    forall i | 0 <= i < N ensures slow(i) == fast(N - 1 - i) {
      ProductCommutes(Sample(x, t + i), imp[N - 1 - i]);
    }
    RealSumExt(N, slow, i => fast(N - 1 - i));
    RealSumExt(N, fast, i => Product(Sample(imp, i), Sample(x, t + N - 1 - i)));
  }

  lemma ProductCommutes(a: real, b: real)
    ensures Product(a, b) == Product(b, a)
  {
  }
}
