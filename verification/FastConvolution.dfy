/** Block filtering by multiplication of spectra (kiss_fastfir.c). */
module FastConvolution {
  import opened Complex
  import opened Twiddles
  import opened Inversion
  import opened Options
  import opened RealSpectrum
  import opened RealSynthesis
  import opened RealTransform
  import opened Convolution
  import opened Samples
  import opened Factor

  /** struct kiss_fastfir_state; the scratch buffers are locals of the methods. */
  datatype FastFirState = FastFirState(nfft: nat, ngood: nat, fftcfg: FftrState, ifftcfg: FftrState,
                                       firFreqResp: seq<Cpx>)

  /** What kiss_fastfir_alloc sets up for the impulse response imp. */
  ghost predicate Ready(st: FastFirState, imp: seq<real>, twf: seq<Cpx>, twi: seq<Cpx>) {
    && st.nfft >= 2 && 1 <= |imp| <= st.nfft
    && st.ngood == st.nfft - |imp| + 1
    && Opposite(st.fftcfg, st.ifftcfg, twf, twi) && 2 * st.fftcfg.substate.nfft == st.nfft
    && |st.firFreqResp| == st.nfft / 2 + 1
    && forall k :: 0 <= k <= st.nfft / 2 ==>
      st.firFreqResp[k] == Scale(1.0 / st.nfft as real, Bin(Rotated(imp, st.nfft), twf, k))
  }

  /** The length kiss_fastfir_alloc chooses when it is asked for none, for a response whose last index is i. */
  function Doublings(i: nat, nfft: nat): nat
    decreases i
  {
    if i / 2 == 0 then 2 * nfft else Doublings(i / 2, 2 * nfft)
  }

  function LengthFor(nImpResp: nat, asked: nat): nat
    requires nImpResp >= 1
  {
    if asked > 0 then asked else Doublings(nImpResp - 1, 2)
  }

  /** The loop of kiss_fastfir_alloc. */
  method ChooseLength(nImpResp: nat, asked: nat) returns (nfft: nat)
    requires nImpResp >= 1
    ensures nfft == LengthFor(nImpResp, asked)
  {
    nfft := asked;
    if nfft <= 0 {
      var i: nat := nImpResp - 1;
      nfft := 2 * 2;
      while i / 2 != 0
        invariant Doublings(i, nfft / 2) == Doublings(nImpResp - 1, 2) && nfft % 2 == 0
        decreases i
      {
        i := i / 2;
        nfft := 2 * nfft;
      }
    }
  }

  lemma {:induction false} LengthFits(i: nat, nfft: nat)
    requires nfft >= 1
    ensures nfft * (i + 1) <= Doublings(i, nfft) && Doublings(i, nfft) >= 2 * nfft
    ensures i >= 1 ==> Doublings(i, nfft) <= 2 * nfft * i
    decreases i
  {
    if i / 2 != 0 {
      LengthFits(i / 2, 2 * nfft);
      Halves(i, nfft);
    }
  }

  lemma Halves(i: nat, nfft: nat)
    ensures nfft * (i + 1) <= 2 * nfft * (i / 2 + 1) && 2 * (2 * nfft) * (i / 2) <= 2 * nfft * i
  {
    assert i + 1 <= 2 * (i / 2 + 1) && 2 * (i / 2) <= i;
    assert nfft * (i + 1) <= nfft * (2 * (i / 2 + 1));
    assert (2 * nfft) * (2 * (i / 2)) <= (2 * nfft) * i;
  }

  lemma {:induction false} DoublingsPower(i: nat, k: nat) returns (e: nat)
    ensures Doublings(i, Pow2(k)) == Pow2(e)
    decreases i
  {
    e := k + 1;
    if i / 2 != 0 {
      e := DoublingsPower(i / 2, k + 1);
    }
  }

  /** A length the allocator chooses itself is the power of two from twice to, exclusively, four times the response. */
  lemma ChosenLength(nImpResp: nat) returns (e: nat)
    requires nImpResp >= 1
    ensures LengthFor(nImpResp, 0) == Pow2(e) && 2 * nImpResp <= Pow2(e)
    ensures if nImpResp == 1 then Pow2(e) == 4 else Pow2(e) < 4 * nImpResp
  {
    assert Pow2(1) == 2;
    e := DoublingsPower(nImpResp - 1, 1);
    LengthFits(nImpResp - 1, 2);
  }

  /**
   * kiss_fastfir_alloc, from two transform configurations of the length it uses. It writes outside its buffer
   * exactly when the response is longer than that by more than one; longer by one, no sample is good.
   */
  method KissFastfirAlloc(imp: seq<real>, asked: nat, fftcfg: FftrState, ifftcfg: FftrState,
                          ghost twf: seq<Cpx>, ghost twi: seq<Cpx>) returns (st: Option<FastFirState>)
    requires |imp| >= 1 && Opposite(fftcfg, ifftcfg, twf, twi) && 2 * fftcfg.substate.nfft == LengthFor(|imp|, asked)
    ensures var nfft := LengthFor(|imp|, asked);
      && (st.None? <==> |imp| > nfft + 1)
      && (st.Some? ==> st.value.nfft == nfft && st.value.ngood == nfft + 1 - |imp|)
      && (|imp| <= nfft ==> st.Some? && Ready(st.value, imp, twf, twi))
  {
    hide Mul, IsTwiddleTable, Bin, RealConfigured, Conjugates, Opposite, Doublings;
    var nfft := ChooseLength(|imp|, asked);
    AtLeastOne(fftcfg, ifftcfg, twf, twi);
    var nFreqBins := nfft / 2 + 1;
    var tmpbuf := new real[nfft](_ => 0.0);
    tmpbuf[0] := imp[|imp| - 1];
    for i := 0 to |imp| - 1
      invariant i > 0 ==> |imp| <= nfft + 1
      invariant |imp| <= nfft ==> tmpbuf[0] == imp[|imp| - 1]
      invariant |imp| <= nfft ==> forall j :: 1 <= j < nfft ==>
        tmpbuf[j] == (if nfft - |imp| + 1 <= j < nfft - |imp| + 1 + i then imp[j - (nfft - |imp| + 1)] else 0.0)
    {
      if nfft - |imp| + 1 + i < 0 {
        return None;
      }
      tmpbuf[nfft - |imp| + 1 + i] := imp[i];
    }
    ghost var rotated := tmpbuf[..];
    var resp := new Cpx[nFreqBins](_ => ZERO);
    KissFftr(fftcfg, tmpbuf[..], resp, twf);
    var scale := 1.0 / nfft as real;
    for i := 0 to nFreqBins
      invariant forall k :: 0 <= k < i ==> resp[k] == Scale(scale, Bin(rotated, twf, k))
      invariant forall k :: i <= k < nFreqBins ==> resp[k] == Bin(rotated, twf, k)
    {
      resp[i] := Scale(scale, resp[i]);
    }
    assert |imp| <= nfft ==> rotated == Rotated(imp, nfft);
    st := Some(FastFirState(nfft, nfft + 1 - |imp|, fftcfg, ifftcfg, resp[..]));
  }

  lemma AtLeastOne(fftcfg: FftrState, ifftcfg: FftrState, twf: seq<Cpx>, twi: seq<Cpx>)
    requires Opposite(fftcfg, ifftcfg, twf, twi)
    ensures fftcfg.substate.nfft >= 1 && RealConfigured(fftcfg, twf) && !fftcfg.substate.inverse
  {
    OppositeTables(fftcfg, ifftcfg, twf, twi);
  }

  /** A circular convolution divided by its length, as the inverse transform expects it. */
  ghost function Reduced(h: seq<real>, x: seq<real>, n: nat): (y: seq<real>)
    requires n > 0
    ensures |y| == n
  {
    seq(n, t requires 0 <= t < n => Product(1.0 / n as real, Circular(h, x, n, t)))
  }

  /** Multiplying by the stored response gives the spectrum of the reduced convolution. */
  lemma ProductOfSpectra(st: FastFirState, imp: seq<real>, twf: seq<Cpx>, twi: seq<Cpx>, x: seq<real>, k: nat)
    requires Ready(st, imp, twf, twi) && |x| == st.nfft && k <= st.nfft / 2
    ensures Mul(Bin(x, twf, k), st.firFreqResp[k]) == Bin(Reduced(Rotated(imp, st.nfft), x, st.nfft), twf, k)
  {
    hide Mul, IsTwiddleTable, Bin, Scale, Product, Circular, Rotated;
    var n, h, s := st.nfft, Rotated(imp, st.nfft), 1.0 / st.nfft as real;
    ConvolutionTheorem(h, x, twf, n, false, k);
    BinScales(CircularAll(h, x, n), Reduced(h, x, n), s, twf, k);
    MulScale(s, Bin(x, twf, k), Bin(h, twf, k));
  }

  lemma MulScale(s: real, a: Cpx, b: Cpx)
    ensures Mul(a, Scale(s, b)) == Scale(s, Mul(a, b))
  {
  }

  lemma Unreduced(n: nat, v: real)
    requires n > 0
    ensures Times(n, Product(1.0 / n as real, v)) == v
  {
    var r := n as real;
    assert r * (1.0 / r) == 1.0;
    assert r * ((1.0 / r) * v) == (r * (1.0 / r)) * v;
  }

  /** fastconv1buf: one block, by way of the two transforms. */
  method FastConv1Buf(st: FastFirState, input: seq<real>, out: array<real>, to: nat,
                      ghost imp: seq<real>, ghost twf: seq<Cpx>, ghost twi: seq<Cpx>)
    requires Ready(st, imp, twf, twi) && |input| == st.nfft && to + st.nfft <= out.Length
    modifies out
    ensures forall i :: to <= i < to + st.nfft ==> out[i] == Circular(Rotated(imp, st.nfft), input, st.nfft, i - to)
    ensures forall i :: 0 <= i < out.Length && !(to <= i < to + st.nfft) ==> out[i] == old(out[i])
  {
    hide Mul, IsTwiddleTable, Bin, RealConfigured, Conjugates, Circular, Rotated, Times, Scale, Product;
    var nFreqBins := st.nfft / 2 + 1;
    var freqbuf := new Cpx[nFreqBins](_ => ZERO);
    KissFftr(st.fftcfg, input, freqbuf, twf);
    ghost var y := Reduced(Rotated(imp, st.nfft), input, st.nfft);
    for i := 0 to nFreqBins
      invariant forall k :: 0 <= k < i ==> freqbuf[k] == Bin(y, twf, k)
      invariant forall k :: i <= k < nFreqBins ==> freqbuf[k] == Bin(input, twf, k)
      modifies freqbuf
    {
      ProductOfSpectra(st, imp, twf, twi, input, i);
      freqbuf[i] := Mul(freqbuf[i], st.firFreqResp[i]);
    }
    ghost var x := KissFftri(st.ifftcfg, freqbuf, out, to, st.fftcfg, twf, twi);
    OppositeTables(st.fftcfg, st.ifftcfg, twf, twi);
    SamplesDetermined(freqbuf[..], x, y, st.nfft / 2, twf, twi);
    forall i | to <= i < to + st.nfft ensures out[i] == Circular(Rotated(imp, st.nfft), input, st.nfft, i - to) {
      var t := i - to;
      assert out[to + t] == Times(st.nfft, y[t]);
      Unreduced(st.nfft, Circular(Rotated(imp, st.nfft), input, st.nfft, t));
    }
  }

  /** A block's good samples are the next items of the stream. */
  lemma BlockItems(imp: seq<real>, x: seq<real>, done: nat, n: nat, t: nat)
    requires 1 <= |imp| <= n && done + n <= |x| && t < n - |imp| + 1
    ensures Circular(Rotated(imp, n), x[done..done + n], n, t) == Direct(imp, x, done + t)
  {
    var block := x[done..done + n];
    GoodSamples(imp, block, n, t);
    DirectSees(imp, block, x, t, done + t);
  }

  /** The samples left after k rounds of the loop of kff_nocopy. */
  function LeftAfter(ngood: nat, nfft: nat, n: nat, k: nat): nat
    requires ngood <= nfft
  {
    if k == 0 then n
    else
      var left := LeftAfter(ngood, nfft, n, k - 1);
      if left >= nfft then left - ngood else left
  }

  /** The loop ends if and only if it does not begin or a round uses up samples. */
  lemma NocopyEnds(ngood: nat, nfft: nat, n: nat)
    requires ngood <= nfft
    ensures (exists k: nat :: LeftAfter(ngood, nfft, n, k) < nfft) <==> n < nfft || ngood > 0
  {
    if n < nfft {
      assert LeftAfter(ngood, nfft, n, 0) < nfft;
    } else if ngood > 0 {
      UsesUp(ngood, nfft, n, n);
    } else {
      forall k: nat ensures LeftAfter(ngood, nfft, n, k) >= nfft { NothingUsed(nfft, n, k); }
    }
  }

  lemma {:induction false} UsesUp(ngood: nat, nfft: nat, n: nat, k: nat)
    requires 0 < ngood <= nfft
    ensures LeftAfter(ngood, nfft, n, k) < nfft || LeftAfter(ngood, nfft, n, k) <= n - k
  {
    if k > 0 { UsesUp(ngood, nfft, n, k - 1); }
  }

  lemma {:induction false} NothingUsed(nfft: nat, n: nat, k: nat)
    ensures LeftAfter(0, nfft, n, k) == n
  {
    if k > 0 { NothingUsed(nfft, n, k - 1); }
  }

  /**
   * kff_nocopy: whole blocks are filtered while a transform's worth of samples is left. With no good samples in a
   * block that never ends: None.
   */
  method KffNocopy(st: FastFirState, inbuf: array<real>, outbuf: array<real>, n0: nat,
                   ghost imp: seq<real>, ghost twf: seq<Cpx>, ghost twi: seq<Cpx>) returns (r: Option<nat>)
    requires st.ngood == 0 || Ready(st, imp, twf, twi)
    requires inbuf != outbuf && n0 <= inbuf.Length && n0 <= outbuf.Length
    modifies outbuf
    ensures r.None? <==> st.ngood == 0 && n0 >= st.nfft
    ensures r.Some? ==> r.value <= n0 && n0 - r.value < st.nfft && (r.value > 0 ==> n0 - r.value >= |imp| - 1)
    ensures r.Some? && n0 < st.nfft ==> r.value == 0
    ensures r.Some? ==> forall k :: 0 <= k < r.value ==> outbuf[k] == Direct(imp, inbuf[..n0], k)
  {
    hide Circular, Rotated, Direct, Opposite, Bin;
    ghost var x := inbuf[..n0];
    var n := n0;
    if n >= st.nfft && st.ngood == 0 { return None; }
    var done := 0;
    while n >= st.nfft
      invariant n >= st.nfft ==> st.ngood > 0
      invariant n + done == n0 && (done > 0 ==> n >= |imp| - 1 && n0 >= st.nfft)
      invariant inbuf[..n0] == x
      invariant forall k :: 0 <= k < done ==> outbuf[k] == Direct(imp, x, k)
      decreases n
    {
      ghost var before := outbuf[..];
      var block := inbuf[done..done + st.nfft];
      assert block == x[done..done + st.nfft];
      FastConv1Buf(st, block, outbuf, done, imp, twf, twi);
      forall k | 0 <= k < done + st.ngood ensures outbuf[k] == Direct(imp, x, k) {
        if k >= done {
          assert outbuf[k] == Circular(Rotated(imp, st.nfft), block, st.nfft, k - done);
          BlockItems(imp, x, done, st.nfft, k - done);
        } else {
          assert outbuf[k] == before[k];
        }
      }
      done := done + st.ngood;
      n := n - st.ngood;
    }
    r := Some(done);
  }

  /** The good samples of a block padded with zeros. */
  lemma PaddedItems(imp: seq<real>, x: seq<real>, padded: seq<real>, k: nat)
    requires 1 <= |imp| <= |padded| && |x| <= |padded| && padded[..|x|] == x && k < |padded| - |imp| + 1
    requires forall i :: |x| <= i < |padded| ==> padded[i] == 0.0
    ensures Circular(Rotated(imp, |padded|), padded, |padded|, k) == Direct(imp, x, k)
  {
    GoodSamples(imp, padded, |padded|, k);
    forall i ensures Sample(padded, i) == Sample(x, i) {
      if 0 <= i < |x| { assert padded[i] == padded[..|x|][i]; }
    }
    DirectSees(imp, padded, x, k, k);
  }

  /**
   * kff_flush, reached only with no new samples: the count ngood - zpad is None where it would be negative,
   * which in size_t wraps to an enormous copy. What is written is the direct form over the waiting samples.
   */
  method KffFlush(st: FastFirState, inbuf: array<real>, outbuf: array<real>, n0: nat,
                  ghost imp: seq<real>, ghost twf: seq<Cpx>, ghost twi: seq<Cpx>) returns (written: Option<nat>)
    requires Ready(st, imp, twf, twi) && inbuf != outbuf && n0 < st.nfft && n0 <= inbuf.Length && n0 <= outbuf.Length
    modifies outbuf
    ensures written == if n0 >= |imp| - 1 then Some(n0 - (|imp| - 1)) else None
    ensures written.Some? ==> forall k :: 0 <= k < written.value ==> outbuf[k] == Direct(imp, inbuf[..n0], k)
  {
    hide Direct, Ready;
    ReadySizes(st, imp, twf, twi);
    var whole := KffNocopy(st, inbuf, outbuf, n0, imp, twf, twi);
    var ntmp := whole.value;
    var n := n0 - ntmp;
    var zpad := st.nfft - n;
    if st.ngood < zpad {
      return None;
    }
    var tmpbuf := FilterPadded(st, inbuf[ntmp..n0], imp, twf, twi);
    ghost var waiting := inbuf[..n0];
    assert inbuf[ntmp..n0] == waiting;
    forall k | 0 <= k < st.ngood - zpad {
      outbuf[ntmp + k] := tmpbuf[k];
    }
    assert inbuf[..n0] == waiting;
    forall k | 0 <= k < st.ngood - zpad ensures outbuf[k] == Direct(imp, waiting, k) {
      assert outbuf[ntmp + k] == tmpbuf[k];
    }
    return Some(ntmp + st.ngood - zpad);
  }

  lemma ReadySizes(st: FastFirState, imp: seq<real>, twf: seq<Cpx>, twi: seq<Cpx>)
    requires Ready(st, imp, twf, twi)
    ensures 1 <= |imp| <= st.nfft && st.ngood == st.nfft - |imp| + 1
  {
  }

  /** One block of the waiting samples and zeros. */
  method FilterPadded(st: FastFirState, waiting: seq<real>, ghost imp: seq<real>, ghost twf: seq<Cpx>,
                      ghost twi: seq<Cpx>)
    returns (tmpbuf: array<real>)
    requires Ready(st, imp, twf, twi) && |waiting| < st.nfft
    ensures fresh(tmpbuf) && tmpbuf.Length == st.nfft
    ensures forall k :: 0 <= k < st.ngood ==> tmpbuf[k] == Direct(imp, waiting, k)
  {
    hide Circular, Rotated, Direct, Ready;
    ReadySizes(st, imp, twf, twi);
    var padded := waiting + seq(st.nfft - |waiting|, _ => 0.0);
    tmpbuf := new real[st.nfft](_ => 0.0);
    FastConv1Buf(st, padded, tmpbuf, 0, imp, twf, twi);
    forall k | 0 <= k < st.ngood ensures tmpbuf[k] == Direct(imp, waiting, k) {
      PaddedItems(imp, waiting, padded, k);
      assert tmpbuf[k] == Circular(Rotated(imp, st.nfft), padded, st.nfft, k - 0);
    }
  }

  /** kiss_fastfir: with new samples, the next items of the stream; the unused samples move to the front. */
  method KissFastfir(st: FastFirState, inbuf: array<real>, outbuf: array<real>, nNew: nat, offset: nat,
                     ghost imp: seq<real>, ghost twf: seq<Cpx>, ghost twi: seq<Cpx>)
    returns (written: Option<nat>, newOffset: nat)
    requires Ready(st, imp, twf, twi) && inbuf != outbuf && offset < st.nfft
    requires nNew + offset <= inbuf.Length && nNew + offset <= outbuf.Length
    modifies inbuf, outbuf
    ensures nNew == 0 ==>
      newOffset == offset && written == (if offset >= |imp| - 1 then Some(offset - (|imp| - 1)) else None)
    ensures nNew == 0 ==> inbuf[..] == old(inbuf[..])
    ensures nNew == 0 && written.Some? ==>
      forall k :: 0 <= k < written.value ==> outbuf[k] == Direct(imp, inbuf[..offset], k)
    ensures nNew > 0 ==>
      && written.Some? && written.value + newOffset == nNew + offset && newOffset < st.nfft
      && (written.value > 0 ==> newOffset >= |imp| - 1)
      && inbuf[..newOffset] == old(inbuf[..nNew + offset])[written.value..]
      && forall k :: 0 <= k < written.value ==> outbuf[k] == Direct(imp, old(inbuf[..nNew + offset]), k)
  {
    hide Direct, Opposite;
    var ntot := nNew + offset;
    if nNew == 0 {
      written := KffFlush(st, inbuf, outbuf, ntot, imp, twf, twi);
      newOffset := offset;
    } else {
      var whole := KffNocopy(st, inbuf, outbuf, ntot, imp, twf, twi);
      var nwritten := whole.value;
      newOffset := ntot - nwritten;
      if nwritten > 0 {
        forall i | 0 <= i < newOffset {
          inbuf[i] := inbuf[nwritten + i];
        }
      }
      written := Some(nwritten);
    }
  }
}
