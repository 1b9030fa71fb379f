/** kiss_fftr and kiss_fftri: two real samples ride in one complex one. */
module RealTransform {
  import opened Complex
  import opened Sums
  import opened Arith
  import opened Twiddles
  import opened Dft
  import opened ButterflySpec
  import opened Factor
  import opened Inversion
  import opened Transform
  import opened RealSpectrum
  import opened RealSynthesis
  import opened Kernels
  import opened Options

  datatype FftrState = FftrState(substate: FftState, superTwiddles: seq<Cpx>)

  /** A configuration for 2*m real samples; tw is the table of the full length, which the code never stores. */
  ghost predicate RealConfigured(st: FftrState, tw: seq<Cpx>) {
    var m := st.substate.nfft;
    && Configured(st.substate)
    && IsTwiddleTable(tw, 2 * m, st.substate.inverse)
    && (forall j :: 0 <= j < m ==> st.substate.twiddles[j] == tw[2 * j])
    && |st.superTwiddles| == m / 2
    && (forall i :: 0 <= i < m / 2 ==> st.superTwiddles[i] == Mul(tw[i + 1], Turn(st.substate.inverse)))
  }

  lemma SubEntryIs(st: FftrState, tw: seq<Cpx>, e: int)
    requires RealConfigured(st, tw)
    ensures W(st.substate.twiddles, e) == W(tw, 2 * e)
  {
    hide Mul, IsTwiddleTable;
    var m := st.substate.nfft;
    TableLength(tw, 2 * m, st.substate.inverse);
    TableLength(st.substate.twiddles, m, st.substate.inverse);
    DoubledIndex(e, m);
  }

  lemma DoubledIndex(e: int, m: int)
    requires m >= 1
    ensures (2 * e) % (2 * m) == 2 * (e % m)
  {
    assert e == (e / m) * m + e % m;
    assert 2 * e == (e / m) * (2 * m) + 2 * (e % m);
    DivModUnique(2 * e, 2 * m, e / m, 2 * (e % m));
  }

  /** The half-length transform of the packed samples, in terms of the full-length table. */
  lemma PackedWithSubTable(st: FftrState, tw: seq<Cpx>, x: seq<real>, k: int)
    requires RealConfigured(st, tw) && |x| == 2 * st.substate.nfft
    ensures DftAt(Pack(x, st.substate.nfft), 0, 1, st.substate.nfft, st.substate.twiddles, 1, k)
         == Packed(x, tw, st.substate.nfft, k)
  {
    hide Mul, RealConfigured;
    var m := st.substate.nfft;
    var g := j => Term(Pack(x, m), 0, 1, st.substate.twiddles, 1, k, j);
    var h := j => Term(Pack(x, m), 0, 1, tw, 2, k, j);
    forall j ensures g(j) == h(j) {
      SubEntryIs(st, tw, 1 * k * j);
      assert 2 * (1 * k * j) == 2 * k * j;
    }
    SumExt(m, g, h);
  }

  /** The code's arithmetic for bins k and m-k of the forward transform, from two packed bins. */
  function Untangle(fpk: Cpx, fpnk: Cpx, super: Cpx): (Cpx, Cpx) {
    var f1k, f2k := Add(fpk, fpnk), Sub(fpk, fpnk);
    var tw := Mul(f2k, super);
    (Scale(0.5, Add(f1k, tw)), Cpx(0.5 * (f1k.re - tw.re), 0.5 * (tw.im - f1k.im)))
  }

  lemma UntangleParts(a: Cpx, b: Cpx, w: Cpx)
    ensures Untangle(Add(a, Mul(b, I)), Conj(Add(Conj(a), Mul(Conj(b), I))), Mul(w, Turn(false)))
         == (Add(a, Mul(b, w)), Conj(Sub(a, Mul(b, w))))
  {
    var p, q := Add(a, Mul(b, I)), Conj(Add(Conj(a), Mul(Conj(b), I)));
    MulI(b);
    MulI(Conj(b));
    assert Add(p, q) == Scale(2.0, a) && Sub(p, q) == Cpx(-2.0 * b.im, 2.0 * b.re);
    TurnProduct(b, w);
  }

  lemma TurnProduct(b: Cpx, w: Cpx)
    ensures Mul(Cpx(-2.0 * b.im, 2.0 * b.re), Mul(w, Turn(false))) == Scale(2.0, Mul(b, w))
  {
    assert Mul(w, Turn(false)) == Cpx(w.im, -w.re);
  }

  lemma HalfTurnEntry(tw: seq<Cpx>, m: nat, inverse: bool)
    requires m >= 1 && IsTwiddleTable(tw, 2 * m, inverse)
    ensures W(tw, m) == MINUS_ONE
  {
    HalfRoot(FftState(2 * m, inverse, [], tw), m);
  }

  lemma MirrorEntry(tw: seq<Cpx>, m: nat, inverse: bool, k: int)
    requires m >= 1 && IsTwiddleTable(tw, 2 * m, inverse)
    ensures W(tw, m - k) == Sub(ZERO, Conj(W(tw, k)))
  {
    hide Mul, IsTwiddleTable;
    HalfTurnEntry(tw, m, inverse);
    WNeg(tw, 2 * m, inverse, k);
    WAdd(tw, 2 * m, inverse, -k, m);
    MulMinusOne(Conj(W(tw, k)));
  }

  /** Bin m-k of real samples is the mirrored difference of the halves. */
  lemma MirrorBin(x: seq<real>, tw: seq<Cpx>, m: nat, inverse: bool, k: nat)
    requires RealSetup(x, tw, m, inverse) && 1 <= k <= m
    ensures Bin(x, tw, m - k) == Conj(Sub(Half(x, tw, m, 0, k), Mul(Half(x, tw, m, 1, k), W(tw, k))))
  {
    hide Mul, IsTwiddleTable, Half, Bin;
    BinFromHalves(x, tw, m, inverse, m - k);
    DivModUnique(m - k, m, 0, m - k);
    HalfMirror(x, tw, m, inverse, 0, k);
    HalfMirror(x, tw, m, inverse, 1, k);
    MirrorEntry(tw, m, inverse, k);
    var b, w := Half(x, tw, m, 1, k), W(tw, k);
    ConjMul(b, w);
    NegMul(Conj(b), Conj(w));
  }

  lemma NegMul(a: Cpx, b: Cpx)
    ensures Mul(a, Sub(ZERO, b)) == Sub(ZERO, Mul(a, b))
  {
  }

  lemma ForwardBins(st: FftrState, tw: seq<Cpx>, x: seq<real>, k: nat)
    requires RealConfigured(st, tw) && !st.substate.inverse
    requires var m := st.substate.nfft; |x| == 2 * m && 1 <= k <= m / 2
    ensures var m := st.substate.nfft;
      Untangle(Packed(x, tw, m, k), Conj(Packed(x, tw, m, m - k)), st.superTwiddles[k - 1])
        == (Bin(x, tw, k), Bin(x, tw, m - k))
  {
    hide Mul, Half, Bin, Untangle, Packed;
    var m := st.substate.nfft;
    PackedFromHalves(x, tw, m, k);
    PackedFromHalves(x, tw, m, m - k);
    HalfMirror(x, tw, m, false, 0, k);
    HalfMirror(x, tw, m, false, 1, k);
    UntangleParts(Half(x, tw, m, 0, k), Half(x, tw, m, 1, k), W(tw, k));
    BinFromHalves(x, tw, m, false, k);
    MirrorBin(x, tw, m, false, k);
    DivModUnique(k, m, 0, k);
    DivModUnique(k, 2 * m, 0, k);
  }

  lemma EdgeBins(x: seq<real>, tw: seq<Cpx>, m: nat, inverse: bool)
    requires RealSetup(x, tw, m, inverse)
    ensures var z := Packed(x, tw, m, 0);
      Bin(x, tw, 0) == Cpx(z.re + z.im, 0.0) && Bin(x, tw, m) == Cpx(z.re - z.im, 0.0)
  {
    hide Mul, IsTwiddleTable, Half, Bin, Packed;
    BinFromHalves(x, tw, m, inverse, 0);
    BinFromHalves(x, tw, m, inverse, m);
    DivModUnique(m, m, 1, 0);
    DivModUnique(0, m, 0, 0);
    HalfMirror(x, tw, m, inverse, 0, 0);
    HalfMirror(x, tw, m, inverse, 1, 0);
    HalfPeriod(x, tw, m, inverse, 0, 0);
    HalfPeriod(x, tw, m, inverse, 1, 0);
    PackedFromHalves(x, tw, m, 0);
    var b := Half(x, tw, m, 1, 0);
    MulI(b);
    WMultiple(tw, 2 * m, inverse, 0);
    HalfTurnEntry(tw, m, inverse);
    MulOne(b);
    MulMinusOne(b);
  }

  /** The half-length transform kiss_fftr starts with: even samples as real, odd ones as imaginary parts. */
  method PackedTransform(st: FftrState, timedata: seq<real>, ghost tw: seq<Cpx>) returns (bins: seq<Cpx>)
    requires RealConfigured(st, tw) && |timedata| == 2 * st.substate.nfft
    ensures |bins| == st.substate.nfft
    ensures forall k :: 0 <= k < |bins| ==> bins[k] == Packed(timedata, tw, st.substate.nfft, k)
  {
    hide Mul, IsTwiddleTable, Bin, Packed, DftAt;
    var ncfft := st.substate.nfft;
    var packed := new Cpx[ncfft](j requires 0 <= j < ncfft => Cpx(timedata[2 * j], timedata[2 * j + 1]));
    var tmpbuf := new Cpx[ncfft](_ => ZERO);
    assert packed[..] == Pack(timedata, ncfft);
    KissFft(st.substate, packed, tmpbuf);
    forall k | 0 <= k < ncfft ensures tmpbuf[k] == Packed(timedata, tw, ncfft, k) {
      PackedWithSubTable(st, tw, timedata, k);
    }
    bins := tmpbuf[..];
  }

  /** kiss_fftr: bins 0..nfft/2 of the spectrum of nfft real samples. */
  method KissFftr(st: FftrState, timedata: seq<real>, freqdata: array<Cpx>, ghost tw: seq<Cpx>)
    requires RealConfigured(st, tw) && !st.substate.inverse
    requires |timedata| == 2 * st.substate.nfft && freqdata.Length > st.substate.nfft
    modifies freqdata
    ensures forall k :: 0 <= k <= st.substate.nfft ==> freqdata[k] == Bin(timedata, tw, k)
  {
    hide Mul, IsTwiddleTable, Bin, Packed, Untangle, DftAt;
    var ncfft := st.substate.nfft;
    var tmpbuf := PackedTransform(st, timedata, tw);
    EdgeBins(timedata, tw, ncfft, false);
    var tdc := tmpbuf[0];
    freqdata[0] := Cpx(tdc.re + tdc.im, 0.0);
    freqdata[ncfft] := Cpx(tdc.re - tdc.im, 0.0);
    for k := 1 to ncfft / 2 + 1
      invariant forall j :: 0 <= j < k || ncfft - k < j <= ncfft ==> freqdata[j] == Bin(timedata, tw, j)
    {
      ForwardBins(st, tw, timedata, k);
      var (low, high) := Untangle(tmpbuf[k], Conj(tmpbuf[ncfft - k]), st.superTwiddles[k - 1]);
      freqdata[k] := low;
      freqdata[ncfft - k] := high;
    }
  }

  /** The code's arithmetic for entries k and m-k of the inverse transform, from two bins. */
  function Tangle(fk: Cpx, fnkc: Cpx, super: Cpx): (Cpx, Cpx) {
    var fek, tmp := Add(fk, fnkc), Sub(fk, fnkc);
    var fok := Mul(tmp, super);
    (Add(fek, fok), Conj(Sub(fek, fok)))
  }

  lemma TangleParts(a: Cpx, b: Cpx, w: Cpx)
    requires Mul(w, Conj(w)) == ONE
    ensures Tangle(Add(a, Mul(b, w)), Conj(Conj(Sub(a, Mul(b, w)))), Mul(Conj(w), Turn(true)))
         == (Scale(2.0, Add(a, Mul(b, I))), Scale(2.0, Add(Conj(a), Mul(Conj(b), I))))
  {
    var bw := Mul(b, w);
    var fk, fnkc := Add(a, bw), Conj(Conj(Sub(a, bw)));
    assert Add(fk, fnkc) == Scale(2.0, a) && Sub(fk, fnkc) == Scale(2.0, bw);
    TurnBack(b, w);
    MulI(b);
    MulI(Conj(b));
  }

  lemma TurnBack(b: Cpx, w: Cpx)
    requires Mul(w, Conj(w)) == ONE
    ensures Mul(Scale(2.0, Mul(b, w)), Mul(Conj(w), Turn(true))) == Scale(2.0, Mul(b, I))
  {
    hide Mul;
    MulAssoc(Scale(2.0, Mul(b, w)), Conj(w), Turn(true));
    ScaleMul(2.0, Mul(b, w), Conj(w));
    MulAssoc(b, w, Conj(w));
    MulOne(b);
    ScaleMul(2.0, b, I);
  }

  lemma ScaleMul(s: real, a: Cpx, b: Cpx)
    ensures Mul(Scale(s, a), b) == Scale(s, Mul(a, b))
  {
  }

  lemma UnitEntry(tw: seq<Cpx>, n: int, inverse: bool, k: int)
    requires IsTwiddleTable(tw, n, inverse)
    ensures Mul(W(tw, k), Conj(W(tw, k))) == ONE
  {
    hide Mul;
    WNeg(tw, n, inverse, k);
    WAdd(tw, n, inverse, k, -k);
    WMultiple(tw, n, inverse, 0);
  }

  /** Forward and inverse configurations for the same length. */
  ghost predicate Opposite(fwd: FftrState, inv: FftrState, twf: seq<Cpx>, twi: seq<Cpx>) {
    && RealConfigured(fwd, twf) && RealConfigured(inv, twi)
    && fwd.substate.nfft == inv.substate.nfft
    && !fwd.substate.inverse && inv.substate.inverse
    && Conjugates(twf, twi)
  }

  lemma OppositeTables(fwd: FftrState, inv: FftrState, twf: seq<Cpx>, twi: seq<Cpx>)
    requires Opposite(fwd, inv, twf, twi)
    ensures var n := 2 * inv.substate.nfft; IsTwiddleTable(twf, n, false) && IsTwiddleTable(twi, n, true)
    ensures inv.substate.nfft >= 1 && Conjugates(twi, twf)
  {
    hide Mul;
  }

  lemma SubTablesConjugate(fwd: FftrState, inv: FftrState, twf: seq<Cpx>, twi: seq<Cpx>)
    requires Opposite(fwd, inv, twf, twi)
    ensures Conjugates(fwd.substate.twiddles, inv.substate.twiddles)
  {
    hide Mul, Conj;
  }

  lemma InverseBins(fwd: FftrState, inv: FftrState, twf: seq<Cpx>, twi: seq<Cpx>, x: seq<real>, k: nat)
    requires Opposite(fwd, inv, twf, twi)
    requires var m := inv.substate.nfft; |x| == 2 * m && 1 <= k <= m / 2
    ensures var m := inv.substate.nfft;
      Tangle(Bin(x, twf, k), Conj(Bin(x, twf, m - k)), inv.superTwiddles[k - 1])
        == (Scale(2.0, Packed(x, twf, m, k)), Scale(2.0, Packed(x, twf, m, m - k)))
  {
    hide Mul, Half, Bin, Tangle, Packed;
    var m := inv.substate.nfft;
    PackedFromHalves(x, twf, m, k);
    PackedFromHalves(x, twf, m, m - k);
    HalfMirror(x, twf, m, false, 0, k);
    HalfMirror(x, twf, m, false, 1, k);
    BinFromHalves(x, twf, m, false, k);
    MirrorBin(x, twf, m, false, k);
    DivModUnique(k, m, 0, k);
    DivModUnique(k, 2 * m, 0, k);
    UnitEntry(twf, 2 * m, false, k);
    TangleParts(Half(x, twf, m, 0, k), Half(x, twf, m, 1, k), W(twf, k));
  }

  /** Doubling the samples doubles every bin. */
  lemma PackedDoubles(x: seq<real>, tw: seq<Cpx>, m: nat, k: int)
    requires |x| == 2 * m
    ensures Packed(Doubled(x), tw, m, k) == Scale(2.0, Packed(x, tw, m, k))
  {
    hide Mul;
    var g := j => Term(Pack(x, m), 0, 1, tw, 2, k, j);
    var h := j => Term(Pack(Doubled(x), m), 0, 1, tw, 2, k, j);
    forall j | 0 <= j < m ensures h(j) == Scale(2.0, g(j)) {
      ScaleMul(2.0, Pack(x, m)[j], W(tw, 2 * k * j));
    }
    SumExt(m, h, j => Scale(2.0, g(j)));
    SumScale(m, g, 2.0);
  }

  function Doubled(x: seq<real>): (y: seq<real>)
    ensures |y| == |x| && forall j :: 0 <= j < |x| ==> y[j] == 2.0 * x[j]
  {
    seq(|x|, j requires 0 <= j < |x| => 2.0 * x[j])
  }

  function Times(n: int, v: real): real {
    n as real * v
  }

  lemma TimesTwice(m: nat, z: Cpx, a: real, b: real)
    requires z == Cpx(2.0 * a, 2.0 * b)
    ensures Scale(m as real, z) == Cpx(Times(2 * m, a), Times(2 * m, b))
  {
    assert (2 * m) as real == 2.0 * m as real;
    assert m as real * (2.0 * a) == (2.0 * m as real) * a;
    assert m as real * (2.0 * b) == (2.0 * m as real) * b;
  }

  /** The half-length inverse transform of the doubled packed spectrum is the packed samples, nfft times. */
  lemma PackedInverts(fwd: FftrState, inv: FftrState, twf: seq<Cpx>, twi: seq<Cpx>, x: seq<real>, Z: seq<Cpx>, l: int)
    requires Opposite(fwd, inv, twf, twi)
    requires var m := inv.substate.nfft;
      && |x| == 2 * m && |Z| == m && 0 <= l < m
      && forall k :: 0 <= k < m ==> Z[k] == Scale(2.0, Packed(x, twf, m, k))
    ensures var m := inv.substate.nfft;
      DftAt(Z, 0, 1, m, inv.substate.twiddles, 1, l) == Cpx(Times(2 * m, x[2 * l]), Times(2 * m, x[2 * l + 1]))
  {
    hide Mul, Packed, DftAt, IsTwiddleTable, Times, Scale;
    var m := inv.substate.nfft;
    var y := Pack(Doubled(x), m);
    forall k | 0 <= k < m ensures Z[k] == DftAt(y, 0, 1, m, fwd.substate.twiddles, 1, k) {
      PackedDoubles(x, twf, m, k);
      PackedWithSubTable(fwd, twf, Doubled(x), k);
    }
    SubTablesConjugate(fwd, inv, twf, twi);
    RoundTrip(y, Z, m, fwd.substate.twiddles, inv.substate.twiddles, false, l);
    TimesTwice(m, y[l], x[2 * l], x[2 * l + 1]);
  }

  lemma FirstEntry(z: Cpx)
    ensures Cpx((z.re + z.im) + (z.re - z.im), (z.re + z.im) - (z.re - z.im)) == Scale(2.0, z)
  {
  }

  /**
   * kiss_fftri: from any bins 0..nfft/2, nfft times the real samples that have them; the imaginary parts of the
   * outer two are not looked at.
   */
  method KissFftri(st: FftrState, freqdata: array<Cpx>, timedata: array<real>, to: nat,
                   ghost fwd: FftrState, ghost twf: seq<Cpx>, ghost twi: seq<Cpx>) returns (ghost x: seq<real>)
    requires Opposite(fwd, st, twf, twi)
    requires to + 2 * st.substate.nfft <= timedata.Length && freqdata.Length > st.substate.nfft
    modifies timedata
    ensures SpectrumOf(freqdata[..], x, twf, st.substate.nfft)
    ensures forall t :: 0 <= t < |x| ==> timedata[to + t] == Times(|x|, x[t])
    ensures forall i :: 0 <= i < timedata.Length && !(to <= i < to + |x|) ==> timedata[i] == old(timedata[i])
  {
    hide Mul, IsTwiddleTable, Bin, Packed, Tangle, DftAt, Conjugates, Times, Scale, SamplesOf;
    var ncfft := st.substate.nfft;
    x := SamplesOf(freqdata[..], ncfft, twi);
    OppositeTables(fwd, st, twf, twi);
    SamplesExist(freqdata[..], ncfft, twf, twi);
    var tmpbuf := new Cpx[ncfft](_ => ZERO);
    EdgeBins(x, twf, ncfft, false);
    tmpbuf[0] := Cpx(freqdata[0].re + freqdata[ncfft].re, freqdata[0].re - freqdata[ncfft].re);
    FirstEntry(Packed(x, twf, ncfft, 0));
    for k := 1 to ncfft / 2 + 1
      invariant forall j :: 0 <= j < k || ncfft - k < j < ncfft ==> tmpbuf[j] == Scale(2.0, Packed(x, twf, ncfft, j))
      modifies tmpbuf
    {
      InverseBins(fwd, st, twf, twi, x, k);
      var (low, high) := Tangle(freqdata[k], Conj(freqdata[ncfft - k]), st.superTwiddles[k - 1]);
      tmpbuf[k] := low;
      tmpbuf[ncfft - k] := high;
    }
    ghost var Z := tmpbuf[..];
    var packed := new Cpx[ncfft](_ => ZERO);
    KissFft(st.substate, tmpbuf, packed);
    forall l | 0 <= l < ncfft
      ensures packed[l] == Cpx(Times(|x|, x[2 * l]), Times(|x|, x[2 * l + 1]))
    {
      PackedInverts(fwd, st, twf, twi, x, Z, l);
    }
    forall t | 0 <= t < 2 * ncfft {
      timedata[to + t] := if t % 2 == 0 then packed[t / 2].re else packed[t / 2].im;
    }
  }

  /** Every second power of a root of order 2*m is a root of order m. */
  lemma {:induction false} PowSquared(c: Cpx, j: nat)
    ensures Pow(Mul(c, c), j) == Pow(c, 2 * j)
  {
    hide Mul;
    if j == 0 {
    } else {
      PowSquared(c, j - 1);
      MulAssoc(Pow(c, 2 * j - 2), c, c);
      assert Pow(c, 2 * j - 1) == Mul(Pow(c, 2 * j - 2), c);
    }
  }

  lemma RootSquared(c: Cpx, m: int)
    requires m >= 1 && IsUnitRoot(c, 2 * m, false)
    ensures IsUnitRoot(Mul(c, c), m, false)
  {
    hide Mul;
    forall j: nat ensures Pow(Mul(c, c), j) == Pow(c, 2 * j) {
      PowSquared(c, j);
    }
    UnitProduct(c, c);
    if m % 4 == 0 {
      assert 2 * (m / 4) == (2 * m) / 4;
    }
  }

  /** The entry i of the full-length table: exp(-2*pi*i/nfft), or its conjugate. */
  function FullEntry(cexp: int -> Cpx, inverse: bool, i: int): Cpx {
    if inverse then Conj(cexp(i)) else cexp(i)
  }

  /**
   * kiss_fftr_alloc: an odd length is refused.
   * The phase of super twiddle i is that of entry i+1 of the full-length table, a quarter turn further.
   */
  method KissFftrAlloc(nfft: int, inverseFft: bool, cexp: int -> Cpx, floorSqrt: int, ghost root: Cpx)
    returns (st: Option<FftrState>, ghost tw: seq<Cpx>)
    requires 2 <= nfft < 0x8000_0000 && IsFloorSqrt(floorSqrt, nfft / 2)
    requires IsUnitRoot(root, nfft, false) && forall i: nat :: cexp(i) == Pow(root, i)
    ensures st.None? <==> nfft % 2 == 1
    ensures st.Some? ==> RealConfigured(st.value, tw) && 2 * st.value.substate.nfft == nfft
    ensures st.Some? ==> st.value.substate.inverse == inverseFft
    ensures |tw| == nfft
    ensures forall i :: 0 <= i < nfft ==> tw[i] == if inverseFft then Conj(cexp(i)) else cexp(i)
  {
    hide Mul, IsUnitRoot, IsTwiddleTable, Pow, Conj;
    tw := seq(nfft, i requires 0 <= i < nfft => FullEntry(cexp, inverseFft, i));
    if nfft % 2 == 1 {
      return None, tw;
    }
    TableIsFilled(root, nfft, inverseFft, tw);
    var m := nfft / 2;
    assert nfft == 2 * m;
    RootSquared(root, m);
    forall i: nat ensures cexp(2 * i) == Pow(Mul(root, root), i) {
      PowSquared(root, i);
    }
    var substate := KissFftAlloc(m, inverseFft, i => cexp(2 * i), floorSqrt, Mul(root, root));
    var superTwiddles := new Cpx[m / 2](_ => ZERO);
    for i := 0 to m / 2
      invariant forall j :: 0 <= j < i ==>
        superTwiddles[j] == Mul(FullEntry(cexp, inverseFft, j + 1), Turn(inverseFft))
    {
      superTwiddles[i] := Mul(FullEntry(cexp, inverseFft, i + 1), Turn(inverseFft));
    }
    st := Some(FftrState(substate, superTwiddles[..]));
  }
}
