/** The transform of real samples, done as a complex transform of half the length (kiss_fftr.c). */
module RealSpectrum {
  import opened Complex
  import opened Sums
  import opened Twiddles
  import opened Dft
  import opened Inversion

  const I := Cpx(0.0, 1.0)

  /** Real samples as complex numbers. */
  function Embed(x: seq<real>): (z: seq<Cpx>)
    ensures |z| == |x| && forall j :: 0 <= j < |x| ==> z[j] == Cpx(x[j], 0.0)
  {
    seq(|x|, j requires 0 <= j < |x| => Cpx(x[j], 0.0))
  }

  /** The samples two by two as the parts of complex numbers: the cast in kiss_fftr. */
  function Pack(x: seq<real>, m: nat): (z: seq<Cpx>)
    requires |x| == 2 * m
    ensures |z| == m && forall j :: 0 <= j < m ==> z[j] == Cpx(x[2 * j], x[2 * j + 1])
  {
    seq(m, j requires 0 <= j < m => Cpx(x[2 * j], x[2 * j + 1]))
  }

  /** Bin k of the spectrum of real samples. */
  ghost function Bin(x: seq<real>, tw: seq<Cpx>, k: int): Cpx {
    DftAt(Embed(x), 0, 1, |x|, tw, 1, k)
  }

  /** Bin k of the m even (b = 0) or odd (b = 1) samples. */
  ghost function Half(x: seq<real>, tw: seq<Cpx>, m: nat, b: int, k: int): Cpx {
    DftAt(Embed(x), b, 2, m, tw, 2, k)
  }

  /** Bin k of the packed samples, with the half-length table. */
  ghost function Packed(x: seq<real>, tw: seq<Cpx>, m: nat, k: int): Cpx
    requires |x| == 2 * m
  {
    DftAt(Pack(x, m), 0, 1, m, tw, 2, k)
  }

  ghost predicate RealSetup(x: seq<real>, tw: seq<Cpx>, m: nat, inverse: bool) {
    m >= 1 && |x| == 2 * m && IsTwiddleTable(tw, 2 * m, inverse)
  }

  /** The full spectrum from the two half spectra. */
  lemma BinFromHalves(x: seq<real>, tw: seq<Cpx>, m: nat, inverse: bool, k: nat)
    requires RealSetup(x, tw, m, inverse)
    ensures Bin(x, tw, k) == Add(Half(x, tw, m, 0, k % m), Mul(Half(x, tw, m, 1, k % m), W(tw, k)))
  {
    hide Mul, IsTwiddleTable;
    var z := Embed(x);
    TableLength(tw, 2 * m, inverse);
    DecimationInTime(z, 0, 1, 2, m, tw, inverse, 1, k);
    var g := q => Mul(DftAt(z, 0 + q * 1, 1 * 2, m, tw, 1 * 2, k % m), W(tw, 1 * k * q));
    assert Sum(2, g) == Add(g(0), g(1)) by {
      assert Sum(1, g) == g(0);
    }
    assert 1 * k * 0 == 0 * (2 * m) && 1 * k * 1 == k;
    WMultiple(tw, 2 * m, inverse, 0);
    MulOne(Half(x, tw, m, 0, k % m));
  }

  lemma TableLength(tw: seq<Cpx>, n: int, inverse: bool)
    requires IsTwiddleTable(tw, n, inverse)
    ensures |tw| == n >= 1
  {
  }

  lemma PackedTerm(x: seq<real>, tw: seq<Cpx>, m: nat, k: int, j: nat)
    requires |x| == 2 * m && j < m
    ensures Term(Pack(x, m), 0, 1, tw, 2, k, j)
         == Add(Term(Embed(x), 0, 2, tw, 2, k, j), Mul(Term(Embed(x), 1, 2, tw, 2, k, j), I))
  {
    hide Mul;
    SplitSample(x[2 * j], x[2 * j + 1], W(tw, 2 * k * j));
  }

  /** The packed spectrum carries the even samples and, turned by a quarter, the odd ones. */
  lemma PackedFromHalves(x: seq<real>, tw: seq<Cpx>, m: nat, k: int)
    requires |x| == 2 * m
    ensures Packed(x, tw, m, k) == Add(Half(x, tw, m, 0, k), Mul(Half(x, tw, m, 1, k), I))
  {
    hide Mul, Term;
    var e := j => Term(Embed(x), 0, 2, tw, 2, k, j);
    var o := j => Term(Embed(x), 1, 2, tw, 2, k, j);
    var z := j => Term(Pack(x, m), 0, 1, tw, 2, k, j);
    SumMul(m, o, I);
    SumAdd(m, e, j => Mul(o(j), I));
    forall j | 0 <= j < m ensures z(j) == Add(e(j), Mul(o(j), I)) {
      PackedTerm(x, tw, m, k, j);
    }
    SumExt(m, z, j => Add(e(j), Mul(o(j), I)));
    SumExt(m, j => Add(e(j), (j => Mul(o(j), I))(j)), j => Add(e(j), Mul(o(j), I)));
  }

  lemma SplitSample(a: real, b: real, w: Cpx)
    ensures Mul(Cpx(a, b), w) == Add(Mul(Cpx(a, 0.0), w), Mul(Mul(Cpx(b, 0.0), w), I))
  {
    MulI(Mul(Cpx(b, 0.0), w));
    MulReal(a, w);
    MulReal(b, w);
  }

  lemma MulI(a: Cpx)
    ensures Mul(a, I) == Cpx(-a.im, a.re)
  {
  }

  /** Real samples: negating the frequency conjugates the bin. */
  lemma HalfMirror(x: seq<real>, tw: seq<Cpx>, m: nat, inverse: bool, b: int, k: int)
    requires RealSetup(x, tw, m, inverse)
    ensures Half(x, tw, m, b, m - k) == Conj(Half(x, tw, m, b, k))
  {
    hide Mul, IsTwiddleTable;
    var g := j => Term(Embed(x), b, 2, tw, 2, k, j);
    var h := j => Term(Embed(x), b, 2, tw, 2, m - k, j);
    forall j ensures h(j) == Conj(g(j)) {
      assert 2 * (m - k) * j == -(2 * k * j) + j * (2 * m);
      TableLength(tw, 2 * m, inverse);
      WPeriod(tw, -(2 * k * j), j);
      WNeg(tw, 2 * m, inverse, 2 * k * j);
      var a := At(Embed(x), b + j * 2);
      assert a == Conj(a);
      ConjMul(a, W(tw, 2 * k * j));
    }
    SumExt(m, h, j => Conj(g(j)));
    SumConj(m, g);
  }

  lemma {:induction false} SumConj(n: nat, g: int -> Cpx)
    ensures Sum(n, j => Conj(g(j))) == Conj(Sum(n, g))
  {
    if n > 0 {
      SumConj(n - 1, g);
      ConjAdd(Sum(n - 1, g), g(n - 1));
      var h := j => Conj(g(j));
      assert Sum(n, h) == Add(Sum(n - 1, h), h(n - 1));
    }
  }

  lemma ConjAdd(a: Cpx, b: Cpx)
    ensures Conj(Add(a, b)) == Add(Conj(a), Conj(b))
  {
  }

  lemma HalfPeriod(x: seq<real>, tw: seq<Cpx>, m: nat, inverse: bool, b: int, k: int)
    requires RealSetup(x, tw, m, inverse)
    ensures Half(x, tw, m, b, k + m) == Half(x, tw, m, b, k)
  {
    hide Mul, IsTwiddleTable;
    forall j ensures Term(Embed(x), b, 2, tw, 2, k + m, j) == Term(Embed(x), b, 2, tw, 2, k, j) {
      assert 2 * (k + m) * j == 2 * k * j + j * (2 * m);
      TableLength(tw, 2 * m, inverse);
      WPeriod(tw, 2 * k * j, j);
    }
    SumExt(m, j => Term(Embed(x), b, 2, tw, 2, k + m, j), j => Term(Embed(x), b, 2, tw, 2, k, j));
  }

  lemma {:induction false} SumScale(n: nat, g: int -> Cpx, s: real)
    ensures Sum(n, j => Scale(s, g(j))) == Scale(s, Sum(n, g))
  {
    if n > 0 {
      SumScale(n - 1, g, s);
      ScaleAdd(s, Sum(n - 1, g), g(n - 1));
    }
  }

  lemma ScaleAdd(s: real, a: Cpx, b: Cpx)
    ensures Scale(s, Add(a, b)) == Add(Scale(s, a), Scale(s, b))
  {
  }
}
