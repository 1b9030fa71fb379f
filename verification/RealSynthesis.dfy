/** Every half spectrum belongs to real samples, and to no others: what kiss_fftri computes for any bins. */
module RealSynthesis {
  import opened Complex
  import opened Sums
  import opened Twiddles
  import opened Dft
  import opened Inversion
  import opened RealSpectrum

  /** The real samples whose bins 1..m-1 are those of F; of the outer two only the real parts count. */
  ghost predicate SpectrumOf(F: seq<Cpx>, x: seq<real>, tw: seq<Cpx>, m: nat) {
    && m >= 1 && |x| == 2 * m && |F| > m
    && F[0].re == Bin(x, tw, 0).re && F[m].re == Bin(x, tw, m).re
    && forall k :: 1 <= k < m ==> F[k] == Bin(x, tw, k)
  }

  /** The half spectrum completed by its mirror image. */
  function Completed(F: seq<Cpx>, m: nat): (S: seq<Cpx>)
    requires m >= 1 && |F| > m
    ensures |S| == 2 * m
  {
    seq(2 * m, k requires 0 <= k < 2 * m =>
      if k == 0 || k == m then Cpx(F[k].re, 0.0) else if k < m then F[k] else Conj(F[2 * m - k]))
  }

  lemma Mirrored(F: seq<Cpx>, m: nat, k: nat)
    requires m >= 1 && |F| > m && k < 2 * m
    ensures Conj(Completed(F, m)[if k == 0 then 0 else 2 * m - k]) == Completed(F, m)[k]
  {
    if m < k {
      assert Completed(F, m)[2 * m - k] == F[2 * m - k];
    } else if 0 < k < m {
      assert Completed(F, m)[2 * m - k] == Conj(F[2 * m - (2 * m - k)]) == Conj(F[k]);
      assert Conj(Conj(F[k])) == F[k];
    }
  }

  /** The real parts of a sequence, scaled. */
  function RealParts(s: real, Y: seq<Cpx>): (x: seq<real>)
    ensures |x| == |Y| && forall j :: 0 <= j < |Y| ==> x[j] == s * Y[j].re
  {
    seq(|Y|, j requires 0 <= j < |Y| => s * Y[j].re)
  }

  lemma RealPartTerm(s: real, y: Cpx, w: Cpx)
    ensures Mul(Cpx(s * y.re, 0.0), w) == Scale(0.5 * s, Add(Mul(y, w), Conj(Mul(y, Conj(w)))))
  {
    MulReal(s * y.re, w);
    var sum := Add(Mul(y, w), Conj(Mul(y, Conj(w))));
    assert sum == Cpx(2.0 * (y.re * w.re), 2.0 * (y.re * w.im));
    assert 0.5 * s * (2.0 * (y.re * w.re)) == s * y.re * w.re;
    assert 0.5 * s * (2.0 * (y.re * w.im)) == s * y.re * w.im;
  }

  /** The bins of the real parts are the mean of a bin and its mirror image. */
  lemma RealPartBin(s: real, Y: seq<Cpx>, n: nat, tw: seq<Cpx>, inverse: bool, k: int)
    requires |Y| == n && IsTwiddleTable(tw, n, inverse)
    ensures Bin(RealParts(s, Y), tw, k)
      == Scale(0.5 * s, Add(DftAt(Y, 0, 1, n, tw, 1, k), Conj(DftAt(Y, 0, 1, n, tw, 1, -k))))
  {
    hide Term, IsTwiddleTable, Scale, Add, Conj;
    var x := RealParts(s, Y);
    var g := j => Term(Embed(x), 0, 1, tw, 1, k, j);
    var a := j => Term(Y, 0, 1, tw, 1, k, j);
    var b := j => Term(Y, 0, 1, tw, 1, -k, j);
    forall j | 0 <= j < n ensures g(j) == Scale(0.5 * s, Add(a(j), Conj(b(j)))) {
      RealTerm(s, Y, n, tw, inverse, k, j);
    }
    SumExt(n, g, j => Scale(0.5 * s, Add(a(j), Conj(b(j)))));
    SumOfMeans(n, a, b, 0.5 * s);
  }

  lemma RealTerm(s: real, Y: seq<Cpx>, n: nat, tw: seq<Cpx>, inverse: bool, k: int, j: nat)
    requires j < |Y| == n && IsTwiddleTable(tw, n, inverse)
    ensures Term(Embed(RealParts(s, Y)), 0, 1, tw, 1, k, j)
      == Scale(0.5 * s, Add(Term(Y, 0, 1, tw, 1, k, j), Conj(Term(Y, 0, 1, tw, 1, -k, j))))
  {
    hide Mul, IsTwiddleTable, Scale, Add, Conj, W;
    var y, w := Y[j], W(tw, 1 * k * j);
    NegatedTerm(Y, n, tw, inverse, k, j);
    RealPartTerm(s, y, w);
    var at := 0 + j * 1;
    assert at == j;
    assert At(Embed(RealParts(s, Y)), at) == Cpx(s * y.re, 0.0) && At(Y, at) == y;
  }

  lemma NegatedTerm(Y: seq<Cpx>, n: nat, tw: seq<Cpx>, inverse: bool, k: int, j: int)
    requires IsTwiddleTable(tw, n, inverse)
    ensures Term(Y, 0, 1, tw, 1, -k, j) == Mul(At(Y, j), Conj(W(tw, 1 * k * j)))
  {
    hide Mul, IsTwiddleTable;
    NegatedExponent(k, j);
    WNeg(tw, n, inverse, 1 * k * j);
  }

  lemma NegatedExponent(k: int, j: int)
    ensures 1 * -k * j == -(1 * k * j)
  {
  }

  lemma {:induction false} SumOfMeans(n: nat, a: int -> Cpx, b: int -> Cpx, s: real)
    ensures Sum(n, j => Scale(s, Add(a(j), Conj(b(j))))) == Scale(s, Add(Sum(n, a), Conj(Sum(n, b))))
  {
    hide Conj;
    if n > 0 {
      SumOfMeans(n - 1, a, b, s);
      var g := j => Scale(s, Add(a(j), Conj(b(j))));
      assert Sum(n, g) == Add(Sum(n - 1, g), g(n - 1));
      ConjAdd(Sum(n - 1, b), b(n - 1));
      ScaleAdd(s, Add(Sum(n - 1, a), Conj(Sum(n - 1, b))), Add(a(n - 1), Conj(b(n - 1))));
    } else {
      assert Conj(ZERO) == ZERO by { ConjZero(); }
    }
  }

  lemma ConjZero()
    ensures Conj(ZERO) == ZERO
  {
  }

  lemma DftPeriod(Y: seq<Cpx>, n: nat, tw: seq<Cpx>, inverse: bool, k: int)
    requires IsTwiddleTable(tw, n, inverse)
    ensures DftAt(Y, 0, 1, n, tw, 1, k + n) == DftAt(Y, 0, 1, n, tw, 1, k)
  {
    hide Mul, IsTwiddleTable;
    forall j ensures Term(Y, 0, 1, tw, 1, k + n, j) == Term(Y, 0, 1, tw, 1, k, j) {
      assert 1 * (k + n) * j == 1 * k * j + j * n;
      TableLength(tw, n, inverse);
      WPeriod(tw, 1 * k * j, j);
    }
    SumExt(n, j => Term(Y, 0, 1, tw, 1, k + n, j), j => Term(Y, 0, 1, tw, 1, k, j));
  }

  /** The transform of the completed spectrum, divided by its length. */
  ghost function SamplesOf(F: seq<Cpx>, m: nat, twi: seq<Cpx>): (x: seq<real>)
    requires m >= 1 && |F| > m
    ensures |x| == 2 * m
  {
    RealParts(1.0 / (2 * m) as real, Transformed(Completed(F, m), 2 * m, twi))
  }

  ghost function Transformed(S: seq<Cpx>, n: nat, tw: seq<Cpx>): (Y: seq<Cpx>)
    ensures |Y| == n && forall l :: 0 <= l < n ==> Y[l] == DftAt(S, 0, 1, n, tw, 1, l)
  {
    seq(n, l requires 0 <= l < n => DftAt(S, 0, 1, n, tw, 1, l))
  }

  lemma Halved(n: nat, a: Cpx)
    requires n > 0
    ensures Scale(0.5 * (1.0 / n as real), Add(Scale(n as real, a), Scale(n as real, a))) == a
  {
    var r := n as real;
    var s := 1.0 / r;
    assert r * s == 1.0;
    assert 0.5 * s * (r * a.re + r * a.re) == (r * s) * a.re;
    assert 0.5 * s * (r * a.im + r * a.im) == (r * s) * a.im;
  }

  lemma SampleBin(F: seq<Cpx>, m: nat, twf: seq<Cpx>, twi: seq<Cpx>, k: nat)
    requires m >= 1 && |F| > m && k < 2 * m
    requires IsTwiddleTable(twf, 2 * m, false) && IsTwiddleTable(twi, 2 * m, true) && Conjugates(twi, twf)
    ensures Bin(SamplesOf(F, m, twi), twf, k) == Completed(F, m)[k]
  {
    hide Mul, IsTwiddleTable, Conjugates, Bin, DftAt, Completed, Scale, Conj, Add, RealParts;
    var n, S := 2 * m, Completed(F, m);
    var Y := Transformed(S, n, twi);
    RealPartBin(1.0 / n as real, Y, n, twf, false, k);
    RoundTrip(S, Y, n, twi, twf, true, k);
    var back: nat := if k == 0 then 0 else n - k;
    RoundTrip(S, Y, n, twi, twf, true, back);
    if k > 0 { DftPeriod(Y, n, twf, false, -(k as int)); }
    Mirrored(F, m, k);
    ConjScale(n as real, S[back]);
    Halved(n, S[k]);
  }

  lemma ConjScale(s: real, a: Cpx)
    ensures Conj(Scale(s, a)) == Scale(s, Conj(a))
  {
  }

  /** Any bins are the spectrum of real samples. */
  lemma SamplesExist(F: seq<Cpx>, m: nat, twf: seq<Cpx>, twi: seq<Cpx>)
    requires m >= 1 && |F| > m
    requires IsTwiddleTable(twf, 2 * m, false) && IsTwiddleTable(twi, 2 * m, true) && Conjugates(twi, twf)
    ensures SpectrumOf(F, SamplesOf(F, m, twi), twf, m)
  {
    hide IsTwiddleTable, Conjugates, Bin, SamplesOf;
    forall k | 0 <= k < 2 * m ensures Bin(SamplesOf(F, m, twi), twf, k) == Completed(F, m)[k] {
      SampleBin(F, m, twf, twi, k);
    }
  }

  /** The upper half of the spectrum of real samples mirrors the lower. */
  lemma BinMirror(x: seq<real>, tw: seq<Cpx>, n: nat, inverse: bool, k: int)
    requires |x| == n && IsTwiddleTable(tw, n, inverse)
    ensures Bin(x, tw, n - k) == Conj(Bin(x, tw, k))
  {
    hide Mul, IsTwiddleTable;
    DftPeriod(Embed(x), n, tw, inverse, -k);
    var g := j => Term(Embed(x), 0, 1, tw, 1, k, j);
    var h := j => Term(Embed(x), 0, 1, tw, 1, -k, j);
    forall j ensures h(j) == Conj(g(j)) {
      NegatedTerm(Embed(x), n, tw, inverse, k, j);
      var a := At(Embed(x), j);
      assert a == Conj(a);
      ConjMul(a, W(tw, 1 * k * j));
    }
    SumExt(n, h, j => Conj(g(j)));
    SumConj(n, g);
  }

  /** A half spectrum belongs to one sequence of samples only. */
  lemma SamplesDetermined(F: seq<Cpx>, x: seq<real>, y: seq<real>, m: nat, twf: seq<Cpx>, twi: seq<Cpx>)
    requires SpectrumOf(F, x, twf, m) && SpectrumOf(F, y, twf, m)
    requires IsTwiddleTable(twf, 2 * m, false) && Conjugates(twf, twi)
    ensures x == y
  {
    hide Mul, IsTwiddleTable, Conjugates, Bin;
    var n := 2 * m;
    forall k | 0 <= k < n ensures Bin(x, twf, k) == Bin(y, twf, k) {
      SameBin(F, x, y, m, twf, k);
    }
    var X := seq(n, k requires 0 <= k < n => Bin(x, twf, k));
    forall l | 0 <= l < n ensures x[l] == y[l] {
      AllBins(x, X, n, twf);
      AllBins(y, X, n, twf);
      RoundTrip(Embed(x), X, n, twf, twi, false, l);
      RoundTrip(Embed(y), X, n, twf, twi, false, l);
      ScaleCancels(n, x[l], y[l]);
    }
  }

  lemma AllBins(x: seq<real>, X: seq<Cpx>, n: nat, tw: seq<Cpx>)
    requires |x| == n == |X| && forall k :: 0 <= k < n ==> X[k] == Bin(x, tw, k)
    ensures forall k :: 0 <= k < n ==> X[k] == DftAt(Embed(x), 0, 1, n, tw, 1, k)
  {
  }

  lemma ScaleCancels(n: nat, a: real, b: real)
    requires n > 0 && Scale(n as real, Cpx(a, 0.0)) == Scale(n as real, Cpx(b, 0.0))
    ensures a == b
  {
    var r := n as real;
    assert r * a == r * b;
    assert a == (r * a) / r && b == (r * b) / r;
  }

  lemma SameBin(F: seq<Cpx>, x: seq<real>, y: seq<real>, m: nat, tw: seq<Cpx>, k: nat)
    requires SpectrumOf(F, x, tw, m) && SpectrumOf(F, y, tw, m) && k < 2 * m
    requires IsTwiddleTable(tw, 2 * m, false)
    ensures Bin(x, tw, k) == Bin(y, tw, k)
  {
    hide IsTwiddleTable, Bin;
    var n := 2 * m;
    if k > m {
      BinMirror(x, tw, n, false, n - k);
      BinMirror(y, tw, n, false, n - k);
    } else if k == 0 || k == m {
      OuterBinReal(x, tw, m, k);
      OuterBinReal(y, tw, m, k);
    }
  }

  lemma OuterBinReal(x: seq<real>, tw: seq<Cpx>, m: nat, k: nat)
    requires |x| == 2 * m && IsTwiddleTable(tw, 2 * m, false) && (k == 0 || k == m)
    ensures Bin(x, tw, k).im == 0.0
  {
    hide IsTwiddleTable;
    BinMirror(x, tw, 2 * m, false, k);
    if k == 0 { DftPeriod(Embed(x), 2 * m, tw, false, 0); }
  }
}
