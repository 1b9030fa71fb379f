/** Circular convolution is multiplication of spectra; away from the wrap it is the direct form. */
module Convolution {
  import opened Complex
  import opened Sums
  import opened Arith
  import opened Twiddles
  import opened Dft
  import opened Inversion
  import opened RealSpectrum
  import opened Samples

  /** Entry t of the circular convolution of two buffers of n samples. */
  ghost function Circular(h: seq<real>, x: seq<real>, n: int, t: int): real
    requires n > 0
  {
    RealSum(n, j => Product(Sample(h, j), Sample(x, (t - j) % n)))
  }

  ghost function CircularAll(h: seq<real>, x: seq<real>, n: nat): (c: seq<real>)
    requires n > 0
    ensures |c| == n && forall t :: 0 <= t < n ==> c[t] == Circular(h, x, n, t)
  {
    seq(n, t requires 0 <= t < n => Circular(h, x, n, t))
  }

  lemma {:induction false} RealSumEmbeds(n: nat, g: int -> real)
    ensures Sum(n, j => Cpx(g(j), 0.0)) == Cpx(RealSum(n, g), 0.0)
  {
    if n > 0 {
      RealSumEmbeds(n - 1, g);
    }
  }

  /** One turn of x starting anywhere, with its twiddles. */
  ghost function Wave(x: seq<real>, tw: seq<Cpx>, k: int, u: int): Cpx
    requires |x| > 0
  {
    Mul(At(Embed(x), u % |x|), W(tw, 1 * k * u))
  }

  lemma WavePeriod(x: seq<real>, tw: seq<Cpx>, n: nat, inverse: bool, k: int, u: int)
    requires n > 0 && |x| == n && IsTwiddleTable(tw, n, inverse)
    ensures Wave(x, tw, k, u + n) == Wave(x, tw, k, u)
  {
    hide Mul;
    ModPeriod(u, 1, n);
    assert 1 * k * (u + n) == 1 * k * u + k * n;
    TableLength(tw, n, inverse);
    WPeriod(tw, 1 * k * u, k);
  }

  /** Summing a whole turn gives the bin, wherever the turn starts. */
  lemma {:induction false} WaveSum(x: seq<real>, tw: seq<Cpx>, n: nat, inverse: bool, k: int, j: nat)
    requires n > 0 && |x| == n && IsTwiddleTable(tw, n, inverse)
    ensures Sum(n, t => Wave(x, tw, k, t - j)) == Bin(x, tw, k)
  {
    hide Mul, IsTwiddleTable;
    if j == 0 {
      forall t | 0 <= t < n ensures Wave(x, tw, k, t - 0) == Term(Embed(x), 0, 1, tw, 1, k, t) {
        DivModUnique(t, n, 0, t);
      }
      SumExt(n, t => Wave(x, tw, k, t - j), t => Term(Embed(x), 0, 1, tw, 1, k, t));
    } else {
      WaveSum(x, tw, n, inverse, k, j - 1);
      var g := t => Wave(x, tw, k, t - j);
      var first: int := j;
      WavePeriod(x, tw, n, inverse, k, -first);
      assert n - j == -first + n;
      SumShift(n, g);
      SumExt(n, t => g(t + 1), t => Wave(x, tw, k, t - (j - 1)));
    }
  }

  /** The share of h[j] in the term of sample t, split into a wave of h and a wave of x. */
  ghost function Share(h: seq<real>, x: seq<real>, tw: seq<Cpx>, k: int, t: int, j: int): Cpx
    requires |x| > 0
  {
    Mul(Wave(x, tw, k, t - j), Term(Embed(h), 0, 1, tw, 1, k, j))
  }

  lemma TermSplits(h: seq<real>, x: seq<real>, tw: seq<Cpx>, n: nat, inverse: bool, k: int, t: int, j: int)
    requires n > 0 && |x| == n == |h| && IsTwiddleTable(tw, n, inverse) && 0 <= j < n
    ensures Mul(Cpx(Product(Sample(h, j), Sample(x, (t - j) % n)), 0.0), W(tw, 1 * k * t)) == Share(h, x, tw, k, t, j)
  {
    hide Mul, IsTwiddleTable;
    var a, b := At(Embed(h), j), At(Embed(x), (t - j) % n);
    var u, v := W(tw, 1 * k * (t - j)), W(tw, 1 * k * j);
    assert 1 * k * t == 1 * k * (t - j) + 1 * k * j;
    WAdd(tw, n, inverse, 1 * k * (t - j), 1 * k * j);
    RealProduct(Sample(h, j), Sample(x, (t - j) % n));
    Regroup(a, b, u, v);
  }

  lemma RealProduct(a: real, b: real)
    ensures Cpx(Product(a, b), 0.0) == Mul(Cpx(a, 0.0), Cpx(b, 0.0))
  {
  }

  lemma Regroup(a: Cpx, b: Cpx, u: Cpx, v: Cpx)
    ensures Mul(Mul(a, b), Mul(u, v)) == Mul(Mul(b, u), Mul(a, v))
  {
    hide Mul;
    MulComm(a, b);
    MulAssoc(b, a, Mul(u, v));
    MulAssoc(a, u, v);
    MulComm(a, u);
    MulAssoc(u, a, v);
    MulAssoc(b, u, Mul(a, v));
  }

  lemma SampleTerm(h: seq<real>, x: seq<real>, tw: seq<Cpx>, n: nat, inverse: bool, k: int, t: nat)
    requires n > 0 && |x| == n == |h| && IsTwiddleTable(tw, n, inverse) && t < n
    ensures Term(Embed(CircularAll(h, x, n)), 0, 1, tw, 1, k, t) == Sum(n, j => Share(h, x, tw, k, t, j))
  {
    hide Mul, IsTwiddleTable, Share, Product;
    var g := j => Product(Sample(h, j), Sample(x, (t - j) % n));
    var w := W(tw, 1 * k * t);
    RealSumExt(n, g, j => Product(Sample(h, j), Sample(x, (t - j) % n)));
    RealSumEmbeds(n, g);
    SumMul(n, j => Cpx(g(j), 0.0), w);
    forall j | 0 <= j < n ensures Mul(Cpx(g(j), 0.0), w) == Share(h, x, tw, k, t, j) {
      TermSplits(h, x, tw, n, inverse, k, t, j);
    }
    SumExt(n, j => Mul((j => Cpx(g(j), 0.0))(j), w), j => Share(h, x, tw, k, t, j));
    assert At(Embed(CircularAll(h, x, n)), 0 + t * 1) == Cpx(RealSum(n, g), 0.0);
  }

  /** The spectrum of a circular convolution is the product of the spectra. */
  lemma ConvolutionTheorem(h: seq<real>, x: seq<real>, tw: seq<Cpx>, n: nat, inverse: bool, k: int)
    requires n > 0 && |x| == n == |h| && IsTwiddleTable(tw, n, inverse)
    ensures Bin(CircularAll(h, x, n), tw, k) == Mul(Bin(x, tw, k), Bin(h, tw, k))
  {
    hide Mul, IsTwiddleTable, Wave, CircularAll;
    var c := CircularAll(h, x, n);
    var g := (t: int, j: int) => Share(h, x, tw, k, t, j);
    forall t | 0 <= t < n ensures Term(Embed(c), 0, 1, tw, 1, k, t) == Sum(n, j => g(t, j)) {
      SampleTerm(h, x, tw, n, inverse, k, t);
      SumExt(n, j => Share(h, x, tw, k, t, j), j => g(t, j));
    }
    SumExt(n, t => Term(Embed(c), 0, 1, tw, 1, k, t), t => Sum(n, j => g(t, j)));
    SumSwap(n, n, g);
    var X := Bin(x, tw, k);
    var hs := j => Term(Embed(h), 0, 1, tw, 1, k, j);
    forall j | 0 <= j < n ensures Sum(n, t => g(t, j)) == Mul(hs(j), X) {
      ColumnSum(h, x, tw, n, inverse, k, j);
      SumExt(n, t => Share(h, x, tw, k, t, j), t => g(t, j));
      MulComm(hs(j), X);
    }
    SumExt(n, j => Sum(n, t => g(t, j)), j => Mul(hs(j), X));
    SumMul(n, hs, X);
    MulComm(Bin(h, tw, k), X);
  }

  lemma ColumnSum(h: seq<real>, x: seq<real>, tw: seq<Cpx>, n: nat, inverse: bool, k: int, j: nat)
    requires n > 0 && |x| == n == |h| && IsTwiddleTable(tw, n, inverse)
    ensures Sum(n, t => Share(h, x, tw, k, t, j)) == Mul(Bin(x, tw, k), Term(Embed(h), 0, 1, tw, 1, k, j))
  {
    hide Mul, IsTwiddleTable, Wave;
    var wave := t => Wave(x, tw, k, t - j);
    var c := Term(Embed(h), 0, 1, tw, 1, k, j);
    WaveSum(x, tw, n, inverse, k, j);
    SumMul(n, wave, c);
    SumExt(n, t => Mul(wave(t), c), t => Share(h, x, tw, k, t, j));
  }

  /** Scaling the samples scales every bin. */
  lemma BinScales(x: seq<real>, y: seq<real>, s: real, tw: seq<Cpx>, k: int)
    requires |x| == |y| && forall j :: 0 <= j < |x| ==> y[j] == Product(s, x[j])
    ensures Bin(y, tw, k) == Scale(s, Bin(x, tw, k))
  {
    hide Mul;
    var g := j => Term(Embed(x), 0, 1, tw, 1, k, j);
    var h := j => Term(Embed(y), 0, 1, tw, 1, k, j);
    forall j | 0 <= j < |x| ensures h(j) == Scale(s, g(j)) {
      ScaleMul(s, x[j], W(tw, 1 * k * j));
    }
    SumExt(|x|, h, j => Scale(s, g(j)));
    SumScale(|x|, g, s);
  }

  lemma ScaleMul(s: real, a: real, b: Cpx)
    ensures Mul(Cpx(Product(s, a), 0.0), b) == Scale(s, Mul(Cpx(a, 0.0), b))
  {
    MulReal(a, b);
    MulReal(Product(s, a), b);
    assert Product(s, a) * b.re == s * (a * b.re);
    assert Product(s, a) * b.im == s * (a * b.im);
  }

  /** The direct form: output t sees the samples t .. t+N-1, newest first. */
  ghost function Direct(imp: seq<real>, x: seq<real>, t: int): real {
    RealSum(|imp|, i => Product(Sample(imp, i), Sample(x, t + |imp| - 1 - i)))
  }

  /** The impulse response rotated left, zeros in the middle, as the allocator stores it. */
  function Rotated(imp: seq<real>, n: nat): (h: seq<real>)
    requires 1 <= |imp| <= n
    ensures |h| == n
  {
    seq(n, j requires 0 <= j < n =>
      if j == 0 then imp[|imp| - 1]
      else if j >= n - |imp| + 1 then imp[j - (n - |imp| + 1)]
      else 0.0)
  }

  /** One term of the circular convolution with the rotated impulse response. */
  ghost function RotatedTerm(imp: seq<real>, x: seq<real>, n: nat, t: int, j: int): real
    requires 1 <= |imp| <= n
  {
    Product(Sample(Rotated(imp, n), j), Sample(x, (t - j) % n))
  }

  lemma RotatedTerms(imp: seq<real>, x: seq<real>, n: nat, t: nat, j: nat)
    requires 1 <= |imp| <= n && |x| == n && t < n - |imp| + 1 && j < n
    ensures RotatedTerm(imp, x, n, t, j)
      == if j == 0 then Product(imp[|imp| - 1], Sample(x, t))
         else if j >= n - |imp| + 1 then Product(imp[j - (n - |imp| + 1)], Sample(x, t - j + n))
         else 0.0
  {
    hide Product;
    ZeroProduct(Sample(x, (t - j) % n));
    if j == 0 {
      DivModUnique(t, n, 0, t);
    } else if j >= n - |imp| + 1 {
      DivModUnique(t - j, n, -1, t - j + n);
    }
  }

  /** The first n-N+1 entries of the circular convolution do not wrap: they are the direct form. */
  lemma GoodSamples(imp: seq<real>, x: seq<real>, n: nat, t: nat)
    requires 1 <= |imp| <= n && |x| == n && t < n - |imp| + 1
    ensures Circular(Rotated(imp, n), x, n, t) == Direct(imp, x, t)
  {
    hide Product, Rotated, Sample;
    var N := |imp|;
    var g := j => RotatedTerm(imp, x, n, t, j);
    var d := i => Product(Sample(imp, i), Sample(x, t + N - 1 - i));
    RealSumExt(n, g, j => Product(Sample(Rotated(imp, n), j), Sample(x, (t - j) % n)));
    RealSumExt(N, d, i => Product(Sample(imp, i), Sample(x, t + N - 1 - i)));
    RotatedSum(imp, x, n, t, g);
    DirectTail(imp, x, n, t, d);
  }

  /** The rotated response's sum is its first term and its last N-1 terms. */
  lemma RotatedSum(imp: seq<real>, x: seq<real>, n: nat, t: nat, g: int -> real)
    requires 1 <= |imp| <= n && |x| == n && t < n - |imp| + 1
    requires forall j :: g(j) == RotatedTerm(imp, x, n, t, j)
    ensures RealSum(n, g) == Product(imp[|imp| - 1], Sample(x, t))
      + RealSum(|imp| - 1, i => RotatedTerm(imp, x, n, t, n - |imp| + 1 + i))
  {
    hide Product, Rotated, Sample, RotatedTerm;
    var N := |imp|;
    RealSumSplit(n - N + 1, N - 1, g);
    RotatedHead(imp, x, n, t, g);
    RealSumExt(N - 1, i => g(n - N + 1 + i), i => RotatedTerm(imp, x, n, t, n - N + 1 + i));
  }

  lemma RotatedHead(imp: seq<real>, x: seq<real>, n: nat, t: nat, g: int -> real)
    requires 1 <= |imp| <= n && |x| == n && t < n - |imp| + 1
    requires forall j :: g(j) == RotatedTerm(imp, x, n, t, j)
    ensures RealSum(n - |imp| + 1, g) == Product(imp[|imp| - 1], Sample(x, t))
  {
    hide Product, Rotated, Sample, RotatedTerm;
    var zeros := n - |imp|;
    RealSumSplit(1, zeros, g);
    var middle := i => g(1 + i);
    forall i: int | 0 <= i < zeros ensures middle(i) == 0.0 {
      RotatedTerms(imp, x, n, t, 1 + i);
    }
    RealSumZero(zeros, middle);
    RotatedTerms(imp, x, n, t, 0);
    assert RealSum(1, g) == RealSum(0, g) + g(0) == g(0);
  }

  lemma DirectTail(imp: seq<real>, x: seq<real>, n: nat, t: nat, d: int -> real)
    requires 1 <= |imp| <= n && |x| == n && t < n - |imp| + 1
    requires forall i :: d(i) == Product(Sample(imp, i), Sample(x, t + |imp| - 1 - i))
    ensures RealSum(|imp|, d) == Product(imp[|imp| - 1], Sample(x, t))
      + RealSum(|imp| - 1, i => RotatedTerm(imp, x, n, t, n - |imp| + 1 + i))
  {
    hide Product, Rotated, RotatedTerm;
    var N := |imp|;
    var tail := i => RotatedTerm(imp, x, n, t, n - N + 1 + i);
    forall i: int | 0 <= i < N - 1 ensures tail(i) == d(i) {
      RotatedTerms(imp, x, n, t, n - N + 1 + i);
    }
    RealSumExt(N - 1, tail, d);
    assert d(N - 1) == Product(imp[N - 1], Sample(x, t));
  }

  lemma ZeroProduct(b: real)
    ensures Product(0.0, b) == 0.0
  {
  }

  /** Only the samples the direct form sees matter. */
  lemma DirectSees(imp: seq<real>, x: seq<real>, y: seq<real>, t: int, u: int)
    requires forall i :: t <= i < t + |imp| ==> Sample(x, i) == Sample(y, i - t + u)
    ensures Direct(imp, x, t) == Direct(imp, y, u)
  {
    hide Product;
    var g := i => Product(Sample(imp, i), Sample(x, t + |imp| - 1 - i));
    var h := i => Product(Sample(imp, i), Sample(y, u + |imp| - 1 - i));
    forall i | 0 <= i < |imp| ensures g(i) == h(i) {
      var at := t + |imp| - 1 - i;
      assert Sample(x, at) == Sample(y, at - t + u);
    }
    RealSumExt(|imp|, g, h);
  }
}
