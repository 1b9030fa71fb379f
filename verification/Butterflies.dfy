/** The five in-place butterflies of kiss_fft.c, all proved against one specification. */
module Butterflies {
  import opened Complex
  import opened Arith
  import opened Twiddles
  import opened Dft
  import opened ButterflySpec
  import opened Kernels

  /** What every butterfly is called with: p rows of m inside Fout, and a stride that fits the table. */
  ghost predicate StageFits(length: int, fo: nat, fstride: nat, st: FftState, m: nat, p: nat) {
    st.Valid() && m >= 1 && p >= 1 && (fstride * m) * p == st.nfft && fo + p * m <= length
  }

  /** One twiddle index of column u stays inside the table. */
  lemma TwiddleIndex(st: FftState, fstride: nat, m: nat, p: nat, u: nat, q: nat)
    requires st.Valid() && (fstride * m) * p == st.nfft && u < m && q < p
    ensures 0 <= fstride * u * q < st.nfft
    ensures W(st.twiddles, fstride * u * q) == st.twiddles[fstride * u * q]
  {
    IndexBound(fstride, m, p, st.nfft, u, q);
    DivModUnique(fstride * u * q, st.nfft, 0, fstride * u * q);
  }

  lemma IndexBound(a: nat, m: nat, p: nat, n: int, u: nat, q: nat)
    requires (a * m) * p == n && n >= 1 && u < m && q < p
    ensures 0 <= a * u * q < n
  {
    var am, x := a * m, a * u;
    MulSign(a, m);
    FactorsPositive(am, p);
    MulSign(a, u);
    MulSign(x, q);
    MulMono(u, m, a);
    MulMono(x, am, q);
    MulMono(q, p - 1, am);
    assert am * (p - 1) == n - am;
  }

  /** Column u of f, whose earlier columns are done, still holds the input. */
  ghost predicate ColumnPending(g: seq<Cpx>, f: seq<Cpx>, fo: nat, m: nat, p: nat, st: FftState, s: nat, u: nat) {
    StageFits(|f|, fo, s, st, m, p) && u < m && g == Progress(f, fo, m, p, st.twiddles, s, u, 0)
  }

  /** Reads of column u see the input, and its twiddle indices are inside the table. */
  lemma ColumnRead(g: seq<Cpx>, f: seq<Cpx>, fo: nat, m: nat, p: nat, st: FftState, s: nat, u: nat, q: nat)
    requires ColumnPending(g, f, fo, m, p, st, s, u) && q < p
    ensures 0 <= fo + u + q * m < |g| && g[fo + u + q * m] == At(f, fo + u + q * m)
    ensures 0 <= q * (s * u) < st.nfft
    ensures Mul(g[fo + u + q * m], st.twiddles[q * (s * u)]) == Twiddled(f, fo, m, st.twiddles, s, u, q)
  {
    hide Mul, Entry;
    ProgressRow(f, fo, m, p, st.twiddles, s, u, q);
    hide Progress;
    InRow(u, q, m, p);
    TwiddleIndex(st, s, m, p, u, q);
    assert s * u * q == q * (s * u);
  }

  lemma Step2(g: seq<Cpx>, f: seq<Cpx>, fo: nat, m: nat, st: FftState, s: nat, u: nat, t: Cpx)
    requires ColumnPending(g, f, fo, m, 2, st, s, u) && t == Twiddled(f, fo, m, st.twiddles, s, u, 1)
    ensures g[fo + u := Add(g[fo + u], t)][fo + u + m := Sub(g[fo + u], t)]
         == Progress(f, fo, m, 2, st.twiddles, s, u + 1, 0)
  {
    hide Mul, Entry, Progress, Twiddled, Add, Sub;
    ProgressRow(f, fo, m, 2, st.twiddles, s, u, 0);
    ProgressRow(f, fo, m, 2, st.twiddles, s, u, 1);
    ProgressColumn(f, fo, m, 2, st.twiddles, s, u);
    Column2(f, fo, m, st, s, u, t);
  }

  method KfBfly2(Fout: array<Cpx>, fo: nat, fstride: nat, st: FftState, m: nat)
    requires StageFits(Fout.Length, fo, fstride, st, m, 2)
    modifies Fout
    ensures Fout[..] == Butterflied(old(Fout[..]), fo, m, 2, st.twiddles, fstride)
  {
    hide Mul, Entry, Progress, Twiddled, Add, Sub;
    ghost var f := Fout[..];
    ghost var u := 0;
    var fo1, fo2, tw1, k := fo, fo + m, 0, m;
    ProgressStarts(f, fo, m, 2, st.twiddles, fstride);
    while k > 0
      invariant 0 <= k <= m && u == m - k && fo1 == fo + u && fo2 == fo1 + m && tw1 == fstride * u
      invariant Fout[..] == Progress(f, fo, m, 2, st.twiddles, fstride, u, 0)
    {
      ghost var g := Fout[..];
      ColumnRead(g, f, fo, m, 2, st, fstride, u, 0);
      ColumnRead(g, f, fo, m, 2, st, fstride, u, 1);
      var t := Mul(Fout[fo2], st.twiddles[tw1]);
      Step2(g, f, fo, m, st, fstride, u, t);
      tw1 := tw1 + fstride;
      Fout[fo2] := Sub(Fout[fo1], t);
      Fout[fo1] := Add(Fout[fo1], t);
      assert Fout[..] == g[fo1 := Fout[fo1]][fo2 := Fout[fo2]];
      assert fstride * (u + 1) == fstride * u + fstride;
      fo2 := fo2 + 1;
      fo1 := fo1 + 1;
      k := k - 1;
      u := u + 1;
    }
  }

  /** One column of the 3-point butterfly, from the imaginary part of the root alone. */
  lemma Step3(g: seq<Cpx>, f: seq<Cpx>, fo: nat, m: nat, st: FftState, s: nat, u: nat, t1: Cpx, t2: Cpx, w: Cpx)
    requires ColumnPending(g, f, fo, m, 3, st, s, u) && w == W(st.twiddles, s * m * 1)
    requires t1 == Twiddled(f, fo, m, st.twiddles, s, u, 1) && t2 == Twiddled(f, fo, m, st.twiddles, s, u, 2)
    ensures var x0, s3, s0 := g[fo + u], Add(t1, t2), Scale(w.im, Sub(t1, t2));
      var h := Cpx(x0.re - s3.re * 0.5, x0.im - s3.im * 0.5);
      g[fo + u := Add(x0, s3)][fo + u + m := Cpx(h.re - s0.im, h.im + s0.re)]
       [fo + u + 2 * m := Cpx(h.re + s0.im, h.im - s0.re)]
        == Progress(f, fo, m, 3, st.twiddles, s, u + 1, 0)
  {
    hide Mul, Entry, Progress, Twiddled, Add, Sub, Scale;
    ProgressRow(f, fo, m, 3, st.twiddles, s, u, 0);
    ProgressRow(f, fo, m, 3, st.twiddles, s, u, 1);
    ProgressRow(f, fo, m, 3, st.twiddles, s, u, 2);
    ProgressColumn(f, fo, m, 3, st.twiddles, s, u);
    Outputs3(f, fo, m, st, s, u, t1, t2, w);
  }

  lemma Outputs3(f: seq<Cpx>, fo: int, m: int, st: FftState, s: int, u: int, t1: Cpx, t2: Cpx, w: Cpx)
    requires ColumnFits(f, fo, m, 3, st, s, u) && w == W(st.twiddles, s * m * 1)
    requires t1 == Twiddled(f, fo, m, st.twiddles, s, u, 1) && t2 == Twiddled(f, fo, m, st.twiddles, s, u, 2)
    ensures var x0, s3, s0 := At(f, fo + u), Add(t1, t2), Scale(w.im, Sub(t1, t2));
      var h := Cpx(x0.re - s3.re * 0.5, x0.im - s3.im * 0.5);
      && Row(f, fo, m, 3, st, s, u, 0) == Add(x0, s3)
      && Row(f, fo, m, 3, st, s, u, 1) == Cpx(h.re - s0.im, h.im + s0.re)
      && Row(f, fo, m, 3, st, s, u, 2) == Cpx(h.re + s0.im, h.im - s0.re)
  {
    hide Mul, Row, Pair;
    Column3(f, fo, m, st, s, u, w);
    PairUnits(t1, t2);
    PairParts(t1, t2, w);
    PairParts(t1, t2, Conj(w));
    MulNeg(Sub(t1, t2).re, w.im);
    MulNeg(Sub(t1, t2).im, w.im);
  }

  lemma MulNeg(a: real, b: real)
    ensures a * -b == -(b * a) && a * b == b * a
  {
  }

  method KfBfly3(Fout: array<Cpx>, fo: nat, fstride: nat, st: FftState, m: nat)
    requires StageFits(Fout.Length, fo, fstride, st, m, 3)
    modifies Fout
    ensures Fout[..] == Butterflied(old(Fout[..]), fo, m, 3, st.twiddles, fstride)
  {
    hide Mul, Entry, Progress, Twiddled, Add, Sub, Scale;
    ghost var f := Fout[..];
    ghost var u := 0;
    var k, m2 := m, 2 * m;
    RootIsNotOne(st, fstride * m, 3, 1);
    var epi3 := st.twiddles[fstride * m];
    var F, tw1, tw2 := fo, 0, 0;
    ProgressStarts(f, fo, m, 3, st.twiddles, fstride);
    while k > 0
      invariant 0 <= k <= m && u == m - k && F == fo + u && tw1 == fstride * u && tw2 == 2 * tw1
      invariant Fout[..] == Progress(f, fo, m, 3, st.twiddles, fstride, u, 0)
    {
      ghost var g := Fout[..];
      ColumnRead(g, f, fo, m, 3, st, fstride, u, 0);
      ColumnRead(g, f, fo, m, 3, st, fstride, u, 1);
      ColumnRead(g, f, fo, m, 3, st, fstride, u, 2);
      var scratch1 := Mul(Fout[F + m], st.twiddles[tw1]);
      var scratch2 := Mul(Fout[F + m2], st.twiddles[tw2]);
      Step3(g, f, fo, m, st, fstride, u, scratch1, scratch2, epi3);
      var scratch3 := Add(scratch1, scratch2);
      var scratch0 := Sub(scratch1, scratch2);
      tw1 := tw1 + fstride;
      tw2 := tw2 + fstride * 2;
      Fout[F + m] := Cpx(Fout[F].re - scratch3.re * 0.5, Fout[F].im - scratch3.im * 0.5);
      scratch0 := Scale(epi3.im, scratch0);
      Fout[F] := Add(Fout[F], scratch3);
      Fout[F + m2] := Cpx(Fout[F + m].re + scratch0.im, Fout[F + m].im - scratch0.re);
      Fout[F + m] := Cpx(Fout[F + m].re - scratch0.im, Fout[F + m].im + scratch0.re);
      assert Fout[..] == g[F := Fout[F]][F + m := Fout[F + m]][F + m2 := Fout[F + m2]];
      assert fstride * (u + 1) == fstride * u + fstride;
      F := F + 1;
      k := k - 1;
      u := u + 1;
    }
  }

  /** One column of the 4-point butterfly: multiplication by +i or -i is a swap of parts. */
  lemma Step4(g: seq<Cpx>, f: seq<Cpx>, fo: nat, m: nat, st: FftState, s: nat, u: nat, t1: Cpx, t2: Cpx, t3: Cpx)
    requires ColumnPending(g, f, fo, m, 4, st, s, u)
    requires t1 == Twiddled(f, fo, m, st.twiddles, s, u, 1) && t2 == Twiddled(f, fo, m, st.twiddles, s, u, 2)
    requires t3 == Twiddled(f, fo, m, st.twiddles, s, u, 3)
    ensures var x0, s3, s4, s5 := g[fo + u], Add(t1, t3), Sub(t1, t3), Sub(g[fo + u], t2);
      var plus, minus := Cpx(s5.re - s4.im, s5.im + s4.re), Cpx(s5.re + s4.im, s5.im - s4.re);
      g[fo + u := Add(Add(x0, t2), s3)][fo + u + m := if st.inverse then plus else minus]
       [fo + u + 2 * m := Sub(Add(x0, t2), s3)][fo + u + 3 * m := if st.inverse then minus else plus]
        == Progress(f, fo, m, 4, st.twiddles, s, u + 1, 0)
  {
    hide Mul, Entry, Progress, Twiddled, Add, Sub;
    ProgressRow(f, fo, m, 4, st.twiddles, s, u, 0);
    ProgressRow(f, fo, m, 4, st.twiddles, s, u, 1);
    ProgressRow(f, fo, m, 4, st.twiddles, s, u, 2);
    ProgressRow(f, fo, m, 4, st.twiddles, s, u, 3);
    ProgressColumn(f, fo, m, 4, st.twiddles, s, u);
    Outputs4(f, fo, m, st, s, u, t1, t2, t3);
  }

  lemma Outputs4(f: seq<Cpx>, fo: int, m: int, st: FftState, s: int, u: int, t1: Cpx, t2: Cpx, t3: Cpx)
    requires ColumnFits(f, fo, m, 4, st, s, u)
    requires t1 == Twiddled(f, fo, m, st.twiddles, s, u, 1) && t2 == Twiddled(f, fo, m, st.twiddles, s, u, 2)
    requires t3 == Twiddled(f, fo, m, st.twiddles, s, u, 3)
    ensures var x0, s3, s4 := At(f, fo + u), Add(t1, t3), Sub(t1, t3);
      var s5 := Sub(x0, t2);
      var plus, minus := Cpx(s5.re - s4.im, s5.im + s4.re), Cpx(s5.re + s4.im, s5.im - s4.re);
      && Row(f, fo, m, 4, st, s, u, 0) == Add(Add(x0, t2), s3)
      && Row(f, fo, m, 4, st, s, u, 1) == (if st.inverse then plus else minus)
      && Row(f, fo, m, 4, st, s, u, 2) == Sub(Add(x0, t2), s3)
      && Row(f, fo, m, 4, st, s, u, 3) == (if st.inverse then minus else plus)
  {
    hide Mul, Row, Pair;
    Column4(f, fo, m, st, s, u);
    PairUnits(t1, t3);
    PairTurns(t1, t3, st.inverse);
    MulOne(t2);
    MulMinusOne(t2);
  }

  method KfBfly4(Fout: array<Cpx>, fo: nat, fstride: nat, st: FftState, m: nat)
    requires StageFits(Fout.Length, fo, fstride, st, m, 4)
    modifies Fout
    ensures Fout[..] == Butterflied(old(Fout[..]), fo, m, 4, st.twiddles, fstride)
  {
    hide Mul, Entry, Progress, Twiddled, Add, Sub;
    ghost var f := Fout[..];
    ghost var u := 0;
    var k, m2, m3 := m, 2 * m, 3 * m;
    var F, tw1, tw2, tw3 := fo, 0, 0, 0;
    ProgressStarts(f, fo, m, 4, st.twiddles, fstride);
    while k > 0
      invariant 0 <= k <= m && u == m - k && F == fo + u
      invariant tw1 == fstride * u && tw2 == 2 * tw1 && tw3 == 3 * tw1
      invariant Fout[..] == Progress(f, fo, m, 4, st.twiddles, fstride, u, 0)
    {
      ghost var g := Fout[..];
      ColumnRead(g, f, fo, m, 4, st, fstride, u, 0);
      ColumnRead(g, f, fo, m, 4, st, fstride, u, 1);
      ColumnRead(g, f, fo, m, 4, st, fstride, u, 2);
      ColumnRead(g, f, fo, m, 4, st, fstride, u, 3);
      var scratch0 := Mul(Fout[F + m], st.twiddles[tw1]);
      var scratch1 := Mul(Fout[F + m2], st.twiddles[tw2]);
      var scratch2 := Mul(Fout[F + m3], st.twiddles[tw3]);
      Step4(g, f, fo, m, st, fstride, u, scratch0, scratch1, scratch2);
      var scratch5 := Sub(Fout[F], scratch1);
      Fout[F] := Add(Fout[F], scratch1);
      var scratch3 := Add(scratch0, scratch2);
      var scratch4 := Sub(scratch0, scratch2);
      Fout[F + m2] := Sub(Fout[F], scratch3);
      tw1 := tw1 + fstride;
      tw2 := tw2 + fstride * 2;
      tw3 := tw3 + fstride * 3;
      Fout[F] := Add(Fout[F], scratch3);
      if st.inverse {
        Fout[F + m] := Cpx(scratch5.re - scratch4.im, scratch5.im + scratch4.re);
        Fout[F + m3] := Cpx(scratch5.re + scratch4.im, scratch5.im - scratch4.re);
      } else {
        Fout[F + m] := Cpx(scratch5.re + scratch4.im, scratch5.im - scratch4.re);
        Fout[F + m3] := Cpx(scratch5.re - scratch4.im, scratch5.im + scratch4.re);
      }
      assert Fout[..] == g[F := Fout[F]][F + m := Fout[F + m]][F + m2 := Fout[F + m2]][F + m3 := Fout[F + m3]];
      assert fstride * (u + 1) == fstride * u + fstride;
      F := F + 1;
      k := k - 1;
      u := u + 1;
    }
  }

  /** scratch[5] and scratch[11]: sums of mirrored rows, weighted by the real parts of the roots. */
  function Even(x0: Cpx, s: Cpx, v: Cpx, a: Cpx, b: Cpx): Cpx {
    EvenOf(x0, s, v, a.re, b.re)
  }

  function EvenOf(x0: Cpx, s: Cpx, v: Cpx, p: real, q: real): Cpx {
    Cpx(x0.re + s.re * p + v.re * q, x0.im + s.im * p + v.im * q)
  }

  /** scratch[6]: differences of mirrored rows, weighted by the imaginary parts. */
  function Odd(s: Cpx, v: Cpx, a: Cpx, b: Cpx): Cpx {
    Cpx(s.im * a.im + v.im * b.im, -(s.re * a.im) - v.re * b.im)
  }

  /** scratch[12]: the same with the roots exchanged. */
  function Cross(s: Cpx, v: Cpx, a: Cpx, b: Cpx): Cpx {
    Cpx(-(s.im * b.im) + v.im * a.im, s.re * b.im - v.re * a.im)
  }

  /** One column of the 5-point butterfly, from sums and differences of mirrored rows. */
  lemma Step5(g: seq<Cpx>, f: seq<Cpx>, fo: nat, m: nat, st: FftState, s: nat, u: nat,
              t1: Cpx, t2: Cpx, t3: Cpx, t4: Cpx, ya: Cpx, yb: Cpx)
    requires ColumnPending(g, f, fo, m, 5, st, s, u)
    requires ya == W(st.twiddles, s * m * 1) && yb == W(st.twiddles, s * m * 2)
    requires t1 == Twiddled(f, fo, m, st.twiddles, s, u, 1) && t2 == Twiddled(f, fo, m, st.twiddles, s, u, 2)
    requires t3 == Twiddled(f, fo, m, st.twiddles, s, u, 3) && t4 == Twiddled(f, fo, m, st.twiddles, s, u, 4)
    ensures var x0, s7, s8, s10, s9 := g[fo + u], Add(t1, t4), Add(t2, t3), Sub(t1, t4), Sub(t2, t3);
      var s5, s6 := Even(x0, s7, s8, ya, yb), Odd(s10, s9, ya, yb);
      var s11 := Even(x0, s7, s8, yb, ya);
      var s12 := Cross(s10, s9, ya, yb);
      g[fo + u := Cpx(x0.re + (s7.re + s8.re), x0.im + (s7.im + s8.im))][fo + u + m := Sub(s5, s6)]
       [fo + u + 2 * m := Add(s11, s12)][fo + u + 3 * m := Sub(s11, s12)][fo + u + 4 * m := Add(s5, s6)]
        == Progress(f, fo, m, 5, st.twiddles, s, u + 1, 0)
  {
    hide Mul, Entry, Progress, Twiddled, Add, Sub, Even, Odd, Cross;
    ProgressRow(f, fo, m, 5, st.twiddles, s, u, 0);
    ProgressRow(f, fo, m, 5, st.twiddles, s, u, 1);
    ProgressRow(f, fo, m, 5, st.twiddles, s, u, 2);
    ProgressRow(f, fo, m, 5, st.twiddles, s, u, 3);
    ProgressRow(f, fo, m, 5, st.twiddles, s, u, 4);
    ProgressColumn(f, fo, m, 5, st.twiddles, s, u);
    Outputs5(f, fo, m, st, s, u, t1, t2, t3, t4, ya, yb);
  }

  lemma Outputs5(f: seq<Cpx>, fo: int, m: int, st: FftState, s: int, u: int,
                 t1: Cpx, t2: Cpx, t3: Cpx, t4: Cpx, ya: Cpx, yb: Cpx)
    requires ColumnFits(f, fo, m, 5, st, s, u)
    requires ya == W(st.twiddles, s * m * 1) && yb == W(st.twiddles, s * m * 2)
    requires t1 == Twiddled(f, fo, m, st.twiddles, s, u, 1) && t2 == Twiddled(f, fo, m, st.twiddles, s, u, 2)
    requires t3 == Twiddled(f, fo, m, st.twiddles, s, u, 3) && t4 == Twiddled(f, fo, m, st.twiddles, s, u, 4)
    ensures var x0, s7, s8, s10, s9 := At(f, fo + u), Add(t1, t4), Add(t2, t3), Sub(t1, t4), Sub(t2, t3);
      var s5, s6 := Even(x0, s7, s8, ya, yb), Odd(s10, s9, ya, yb);
      var s11 := Even(x0, s7, s8, yb, ya);
      var s12 := Cross(s10, s9, ya, yb);
      && Row(f, fo, m, 5, st, s, u, 0) == Cpx(x0.re + (s7.re + s8.re), x0.im + (s7.im + s8.im))
      && Row(f, fo, m, 5, st, s, u, 1) == Sub(s5, s6)
      && Row(f, fo, m, 5, st, s, u, 2) == Add(s11, s12)
      && Row(f, fo, m, 5, st, s, u, 3) == Sub(s11, s12)
      && Row(f, fo, m, 5, st, s, u, 4) == Add(s5, s6)
  {
    hide Mul, Row, Pair, Even, Odd, Cross;
    Column5(f, fo, m, st, s, u, ya, yb);
    PairUnits(t1, t4);
    PairUnits(t2, t3);
    PairsMix(At(f, fo + u), t1, t2, t3, t4, ya, yb);
    PairsMix(At(f, fo + u), t1, t2, t3, t4, yb, Conj(ya));
    PairsMix(At(f, fo + u), t1, t2, t3, t4, Conj(yb), ya);
    PairsMix(At(f, fo + u), t1, t2, t3, t4, Conj(ya), Conj(yb));
    EvenMirrors(At(f, fo + u), Add(t1, t4), Add(t2, t3), ya, yb);
    OddMirrors(Sub(t1, t4), Sub(t2, t3), ya, yb);
  }

  lemma EvenMirrors(x0: Cpx, s: Cpx, v: Cpx, a: Cpx, b: Cpx)
    ensures Even(x0, s, v, b, Conj(a)) == Even(x0, s, v, b, a) == Even(x0, s, v, Conj(b), a)
    ensures Even(x0, s, v, Conj(a), Conj(b)) == Even(x0, s, v, a, b)
  {
    hide EvenOf;
    assert Conj(a).re == a.re && Conj(b).re == b.re;
  }

  lemma OddMirrors(s: Cpx, v: Cpx, a: Cpx, b: Cpx)
    ensures Odd(s, v, b, Conj(a)) == Sub(ZERO, Cross(s, v, a, b))
    ensures Odd(s, v, Conj(b), a) == Cross(s, v, a, b)
    ensures Odd(s, v, Conj(a), Conj(b)) == Sub(ZERO, Odd(s, v, a, b))
  {
    hide Odd, Cross;
    OddTurned(s, v, a, b);
    OddTurnedBack(s, v, a, b);
    OddMirrored(s, v, a, b);
  }

  lemma OddTurned(s: Cpx, v: Cpx, a: Cpx, b: Cpx)
    ensures Odd(s, v, b, Conj(a)) == Sub(ZERO, Cross(s, v, a, b))
  {
    NegProducts(v, a.im, Conj(a).im);
  }

  lemma OddTurnedBack(s: Cpx, v: Cpx, a: Cpx, b: Cpx)
    ensures Odd(s, v, Conj(b), a) == Cross(s, v, a, b)
  {
    NegProducts(s, b.im, Conj(b).im);
  }

  lemma OddMirrored(s: Cpx, v: Cpx, a: Cpx, b: Cpx)
    ensures Odd(s, v, Conj(a), Conj(b)) == Sub(ZERO, Odd(s, v, a, b))
  {
    NegProducts(s, a.im, Conj(a).im);
    NegProducts(v, b.im, Conj(b).im);
  }

  lemma NegProducts(s: Cpx, y: real, z: real)
    requires z == -y
    ensures s.re * z == -(s.re * y) && s.im * z == -(s.im * y)
  {
  }

  lemma PairsMix(x0: Cpx, t1: Cpx, t2: Cpx, t3: Cpx, t4: Cpx, a: Cpx, b: Cpx)
    ensures Add(x0, Add(Pair(t1, t4, a), Pair(t2, t3, b)))
         == Sub(Even(x0, Add(t1, t4), Add(t2, t3), a, b), Odd(Sub(t1, t4), Sub(t2, t3), a, b))
  {
    hide Mul, Pair;
    PairParts(t1, t4, a);
    PairParts(t2, t3, b);
  }

  method KfBfly5(Fout: array<Cpx>, fo: nat, fstride: nat, st: FftState, m: nat)
    requires StageFits(Fout.Length, fo, fstride, st, m, 5)
    modifies Fout
    ensures Fout[..] == Butterflied(old(Fout[..]), fo, m, 5, st.twiddles, fstride)
  {
    hide Mul, Entry, Progress, Twiddled, Add, Sub, Even, Odd, Cross;
    ghost var f := Fout[..];
    RootIsNotOne(st, fstride * m, 5, 1);
    RootIsNotOne(st, fstride * m, 5, 2);
    assert fstride * 2 * m == fstride * m * 2;
    var ya, yb := st.twiddles[fstride * m], st.twiddles[fstride * 2 * m];
    var fo0, fo1, fo2, fo3, fo4 := fo, fo + m, fo + 2 * m, fo + 3 * m, fo + 4 * m;
    ProgressStarts(f, fo, m, 5, st.twiddles, fstride);
    for u := 0 to m
      invariant fo0 == fo + u && fo1 == fo0 + m && fo2 == fo0 + 2 * m && fo3 == fo0 + 3 * m && fo4 == fo0 + 4 * m
      invariant Fout[..] == Progress(f, fo, m, 5, st.twiddles, fstride, u, 0)
    {
      ghost var g := Fout[..];
      TwiddleSteps(fstride, u);
      ColumnRead(g, f, fo, m, 5, st, fstride, u, 0);
      ColumnRead(g, f, fo, m, 5, st, fstride, u, 1);
      ColumnRead(g, f, fo, m, 5, st, fstride, u, 2);
      ColumnRead(g, f, fo, m, 5, st, fstride, u, 3);
      ColumnRead(g, f, fo, m, 5, st, fstride, u, 4);
      var scratch0 := Fout[fo0];
      var scratch1 := Mul(Fout[fo1], st.twiddles[u * fstride]);
      var scratch2 := Mul(Fout[fo2], st.twiddles[2 * u * fstride]);
      var scratch3 := Mul(Fout[fo3], st.twiddles[3 * u * fstride]);
      var scratch4 := Mul(Fout[fo4], st.twiddles[4 * u * fstride]);
      Step5(g, f, fo, m, st, fstride, u, scratch1, scratch2, scratch3, scratch4, ya, yb);
      var scratch7, scratch10 := Add(scratch1, scratch4), Sub(scratch1, scratch4);
      var scratch8, scratch9 := Add(scratch2, scratch3), Sub(scratch2, scratch3);
      Fout[fo0] := Cpx(Fout[fo0].re + (scratch7.re + scratch8.re), Fout[fo0].im + (scratch7.im + scratch8.im));
      var scratch5 := Even(scratch0, scratch7, scratch8, ya, yb);
      var scratch6 := Odd(scratch10, scratch9, ya, yb);
      Fout[fo1] := Sub(scratch5, scratch6);
      Fout[fo4] := Add(scratch5, scratch6);
      var scratch11 := Even(scratch0, scratch7, scratch8, yb, ya);
      var scratch12 := Cross(scratch10, scratch9, ya, yb);
      Fout[fo2] := Add(scratch11, scratch12);
      Fout[fo3] := Sub(scratch11, scratch12);
      assert Fout[..] == g[fo0 := Fout[fo0]][fo1 := Fout[fo1]][fo2 := Fout[fo2]][fo3 := Fout[fo3]][fo4 := Fout[fo4]];
      fo0, fo1, fo2, fo3, fo4 := fo0 + 1, fo1 + 1, fo2 + 1, fo3 + 1, fo4 + 1;
    }
  }

  lemma TwiddleSteps(fstride: nat, u: nat)
    ensures u * fstride == 1 * (fstride * u) && 2 * u * fstride == 2 * (fstride * u)
    ensures 3 * u * fstride == 3 * (fstride * u) && 4 * u * fstride == 4 * (fstride * u)
  {
  }
}
