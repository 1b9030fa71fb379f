/** Outputs of one column of the 2, 3, 4 and 5 point butterflies in terms of roots of unity. */
module Kernels {
  import opened Complex
  import opened Sums
  import opened Arith
  import opened Twiddles
  import opened Dft
  import opened ButterflySpec

  lemma {:induction false} SmallSums(g: int -> Cpx)
    ensures Sum(2, g) == Add(g(0), g(1))
    ensures Sum(3, g) == Add(Add(g(0), g(1)), g(2))
    ensures Sum(4, g) == Add(Add(Add(g(0), g(1)), g(2)), g(3))
    ensures Sum(5, g) == Add(Add(Add(Add(g(0), g(1)), g(2)), g(3)), g(4))
  {
    assert Sum(1, g) == g(0);
  }

  lemma SplitExponent(sm: int, p: int, j: int)
    requires p > 0
    ensures sm * j == sm * (j % p) + (j / p) * (sm * p)
  {
    assert j == (j / p) * p + j % p;
    assert sm * j == sm * ((j / p) * p) + sm * (j % p);
    assert sm * ((j / p) * p) == (j / p) * (sm * p);
  }

  /** Powers of the p-th root tw[sm] repeat with period p. */
  lemma RootReduces(st: FftState, sm: int, p: int, j: int)
    requires st.Valid() && p > 0 && sm * p == st.nfft
    ensures W(st.twiddles, sm * j) == W(st.twiddles, sm * (j % p))
  {
    SplitExponent(sm, p, j);
    WPeriod(st.twiddles, sm * (j % p), j / p);
  }

  lemma RootConj(st: FftState, sm: int, p: int, j: int)
    requires st.Valid() && p > 0 && sm * p == st.nfft
    ensures W(st.twiddles, sm * (p - j)) == Conj(W(st.twiddles, sm * j))
  {
    assert sm * (p - j) == -(sm * j) + 1 * (sm * p);
    WPeriod(st.twiddles, -(sm * j), 1);
    WNeg(st.twiddles, st.nfft, st.inverse, sm * j);
  }

  lemma RootIsNotOne(st: FftState, sm: int, p: int, j: int)
    requires st.Valid() && 0 < j < p && sm * p == st.nfft
    ensures 0 < sm * j < st.nfft && W(st.twiddles, sm * j) == st.twiddles[sm * j] != ONE
  {
    if sm <= 0 {
      MulMono(sm, 0, p);
    }
    assert sm * j >= 1 && sm * (p - j) >= 1;
    assert sm * (p - j) == sm * p - sm * j;
    DivModUnique(sm * j, st.nfft, 0, sm * j);
  }

  lemma RootSquare(st: FftState, sm: int, j: int)
    requires st.Valid()
    ensures W(st.twiddles, sm * (2 * j)) == Mul(W(st.twiddles, sm * j), W(st.twiddles, sm * j))
  {
    hide Mul;
    assert sm * (2 * j) == sm * j + sm * j;
    WAdd(st.twiddles, st.nfft, st.inverse, sm * j, sm * j);
  }

  lemma RootZero(st: FftState, sm: int)
    requires st.Valid()
    ensures W(st.twiddles, sm * 0) == ONE
  {
    WMultiple(st.twiddles, st.nfft, st.inverse, 0);
  }

  /** A square root of 1 other than 1 is -1. */
  lemma MinusOne(w: Cpx)
    requires Mul(w, w) == ONE && w != ONE
    ensures w == MINUS_ONE
  {
    assert Mul(Sub(w, ONE), Add(w, ONE)) == Sub(Mul(w, w), ONE);
    NoZeroDivisors(Sub(w, ONE), Add(w, ONE));
  }

  lemma HalfRoot(st: FftState, sm: int)
    requires st.Valid() && sm * 2 == st.nfft
    ensures W(st.twiddles, sm * 1) == MINUS_ONE
  {
    RootSquare(st, sm, 1);
    RootReduces(st, sm, 2, 2);
    RootZero(st, sm);
    RootIsNotOne(st, sm, 2, 1);
    MinusOne(W(st.twiddles, sm * 1));
  }

  /** A cube root of 1 other than 1 has real part -1/2. */
  lemma CubeRootReal(w: Cpx)
    requires Mul(w, w) == Conj(w) && Mul(Conj(w), w) == ONE && w != ONE
    ensures w.re == -0.5
  {
    var s := Add(Add(ONE, w), Conj(w));
    assert Mul(Sub(w, ONE), s) == ZERO by {
      assert Mul(Sub(w, ONE), s) == Sub(Add(Mul(w, w), Mul(Conj(w), w)), Add(ONE, Conj(w)));
    }
    NoZeroDivisors(Sub(w, ONE), s);
  }

  lemma ThirdRoot(st: FftState, sm: int)
    requires st.Valid() && sm * 3 == st.nfft
    ensures W(st.twiddles, sm * 1).re == -0.5
    ensures W(st.twiddles, sm * 2) == Conj(W(st.twiddles, sm * 1))
  {
    hide Mul;
    RootSquare(st, sm, 1);
    RootConj(st, sm, 3, 1);
    RootZero(st, sm);
    RootReduces(st, sm, 3, 3);
    assert sm * 3 == sm * 2 + sm * 1;
    WAdd(st.twiddles, st.nfft, st.inverse, sm * 2, sm * 1);
    RootIsNotOne(st, sm, 3, 1);
    CubeRootReal(W(st.twiddles, sm * 1));
  }

  function Turn(inverse: bool): Cpx {
    Cpx(0.0, if inverse then 1.0 else -1.0)
  }

  lemma QuarterRoot(st: FftState, sm: int)
    requires st.Valid() && sm * 4 == st.nfft
    ensures W(st.twiddles, sm * 1) == Turn(st.inverse)
    ensures W(st.twiddles, sm * 2) == MINUS_ONE
    ensures W(st.twiddles, sm * 3) == Conj(Turn(st.inverse))
  {
    DivModUnique(st.nfft, 4, sm, 0);
    RootIsNotOne(st, sm, 4, 1);
    assert (sm * 2) * 1 == sm * 2;
    HalfRoot(st, sm * 2);
    RootConj(st, sm, 4, 1);
  }

  ghost function Row(f: seq<Cpx>, fo: int, m: int, p: nat, st: FftState, s: int, u: int, r: int): Cpx
    requires m > 0
  {
    Entry(f, fo, m, p, st.twiddles, s, u + r * m)
  }

  ghost predicate ColumnFits(f: seq<Cpx>, fo: int, m: int, p: nat, st: FftState, s: int, u: int) {
    st.Valid() && 0 <= u < m && (s * m) * p == st.nfft && 0 <= fo && fo + p * m <= |f|
  }

  /** The share of input row q in output row r. */
  ghost function Share(f: seq<Cpx>, fo: int, m: int, p: nat, st: FftState, s: int, u: int, r: int, q: int): Cpx
    requires p > 0
  {
    Mul(Twiddled(f, fo, m, st.twiddles, s, u, q), W(st.twiddles, (s * m) * ((r * q) % p)))
  }

  lemma RowIsSum(f: seq<Cpx>, fo: int, m: int, p: nat, st: FftState, s: int, u: int, r: int) returns (g: int -> Cpx)
    requires ColumnFits(f, fo, m, p, st, s, u) && 0 <= r < p
    ensures Row(f, fo, m, p, st, s, u, r) == Sum(p, g)
    ensures forall q :: g(q) == Share(f, fo, m, p, st, s, u, r, q)
    ensures g(0) == At(f, fo + u)
  {
    hide Mul;
    EntryIsSmallTransform(f, fo, m, p, st, s, u, r);
    g := q => Mul(Twiddled(f, fo, m, st.twiddles, s, u, q), W(st.twiddles, (s * m) * (r * q)));
    forall q ensures g(q) == Share(f, fo, m, p, st, s, u, r, q) {
      RootReduces(st, s * m, p, r * q);
    }
    RootZero(st, s * m);
    RootZero(st, s * u);
    MulOne(At(f, fo + u));
  }

  lemma Column2(f: seq<Cpx>, fo: int, m: int, st: FftState, s: int, u: int, t: Cpx)
    requires ColumnFits(f, fo, m, 2, st, s, u) && t == Twiddled(f, fo, m, st.twiddles, s, u, 1)
    ensures Row(f, fo, m, 2, st, s, u, 0) == Add(At(f, fo + u), t)
    ensures Row(f, fo, m, 2, st, s, u, 1) == Sub(At(f, fo + u), t)
  {
    hide Mul, Row;
    RootZero(st, s * m);
    HalfRoot(st, s * m);
    var g := RowIsSum(f, fo, m, 2, st, s, u, 0);
    SmallSums(g);
    g := RowIsSum(f, fo, m, 2, st, s, u, 1);
    SmallSums(g);
    MulOne(t);
    MulMinusOne(t);
  }

  /** t*w + v*conj(w): what two rows with mirrored roots contribute. */
  ghost function Pair(t: Cpx, v: Cpx, w: Cpx): Cpx {
    Add(Mul(t, w), Mul(v, Conj(w)))
  }

  /** Only the sum and the difference of the two rows matter. */
  lemma PairParts(t: Cpx, v: Cpx, w: Cpx)
    ensures Pair(t, v, w) == Cpx(Add(t, v).re * w.re - Sub(t, v).im * w.im, Add(t, v).im * w.re + Sub(t, v).re * w.im)
  {
  }

  lemma PairUnits(t: Cpx, v: Cpx)
    ensures Pair(t, v, ONE) == Add(t, v)
    ensures Pair(t, v, MINUS_ONE) == Sub(ZERO, Add(t, v))
  {
    hide Mul, Conj;
    ConjOne();
    ConjMinusOne();
    MulOne(t);
    MulOne(v);
    MulMinusOne(t);
    MulMinusOne(v);
  }

  lemma PairTurns(t: Cpx, v: Cpx, inverse: bool)
    ensures Pair(t, v, Turn(inverse)) == var d := Sub(t, v); if inverse then Cpx(-d.im, d.re) else Cpx(d.im, -d.re)
    ensures var d := Sub(t, v);
      Pair(t, v, Conj(Turn(inverse))) == if inverse then Cpx(d.im, -d.re) else Cpx(-d.im, d.re)
  {
  }

  /** x0 + t1*w + t2*conj(w). */
  ghost function Mix3(f: seq<Cpx>, fo: int, m: int, st: FftState, s: int, u: int, w: Cpx): Cpx {
    Add(At(f, fo + u), Pair(Twiddled(f, fo, m, st.twiddles, s, u, 1), Twiddled(f, fo, m, st.twiddles, s, u, 2), w))
  }

  lemma Column3(f: seq<Cpx>, fo: int, m: int, st: FftState, s: int, u: int, w: Cpx)
    requires ColumnFits(f, fo, m, 3, st, s, u) && w == W(st.twiddles, s * m * 1)
    ensures w.re == -0.5
    ensures Row(f, fo, m, 3, st, s, u, 0) == Mix3(f, fo, m, st, s, u, ONE)
    ensures Row(f, fo, m, 3, st, s, u, 1) == Mix3(f, fo, m, st, s, u, w)
    ensures Row(f, fo, m, 3, st, s, u, 2) == Mix3(f, fo, m, st, s, u, Conj(w))
  {
    hide Mul, Row, Mix3, W, IsTwiddleTable;
    RootZero(st, s * m);
    ThirdRoot(st, s * m);
    Column3Row(f, fo, m, st, s, u, 0, ONE);
    Column3Row(f, fo, m, st, s, u, 1, w);
    Column3Row(f, fo, m, st, s, u, 2, Conj(w));
  }

  lemma Column3Row(f: seq<Cpx>, fo: int, m: int, st: FftState, s: int, u: int, r: int, w: Cpx)
    requires ColumnFits(f, fo, m, 3, st, s, u) && 0 <= r < 3
    requires W(st.twiddles, s * m * (r % 3)) == w && W(st.twiddles, s * m * ((r * 2) % 3)) == Conj(w)
    ensures Row(f, fo, m, 3, st, s, u, r) == Mix3(f, fo, m, st, s, u, w)
  {
    hide Mul, Row;
    var g := RowIsSum(f, fo, m, 3, st, s, u, r);
    SmallSums(g);
    assert r * 1 == r;
  }

  /** x0 + t1*w + t2*v + t3*conj(w). */
  ghost function Mix4(f: seq<Cpx>, fo: int, m: int, st: FftState, s: int, u: int, w: Cpx, v: Cpx): Cpx {
    Add(Add(At(f, fo + u), Mul(Twiddled(f, fo, m, st.twiddles, s, u, 2), v)),
        Pair(Twiddled(f, fo, m, st.twiddles, s, u, 1), Twiddled(f, fo, m, st.twiddles, s, u, 3), w))
  }

  lemma Column4(f: seq<Cpx>, fo: int, m: int, st: FftState, s: int, u: int)
    requires ColumnFits(f, fo, m, 4, st, s, u)
    ensures Row(f, fo, m, 4, st, s, u, 0) == Mix4(f, fo, m, st, s, u, ONE, ONE)
    ensures Row(f, fo, m, 4, st, s, u, 1) == Mix4(f, fo, m, st, s, u, Turn(st.inverse), MINUS_ONE)
    ensures Row(f, fo, m, 4, st, s, u, 2) == Mix4(f, fo, m, st, s, u, MINUS_ONE, ONE)
    ensures Row(f, fo, m, 4, st, s, u, 3) == Mix4(f, fo, m, st, s, u, Conj(Turn(st.inverse)), MINUS_ONE)
  {
    hide Mul, Row, Mix4, W, IsTwiddleTable;
    RootZero(st, s * m);
    QuarterRoot(st, s * m);
    Column4Row(f, fo, m, st, s, u, 0, ONE, ONE);
    Column4Row(f, fo, m, st, s, u, 1, Turn(st.inverse), MINUS_ONE);
    Column4Row(f, fo, m, st, s, u, 2, MINUS_ONE, ONE);
    Column4Row(f, fo, m, st, s, u, 3, Conj(Turn(st.inverse)), MINUS_ONE);
  }

  lemma Column4Row(f: seq<Cpx>, fo: int, m: int, st: FftState, s: int, u: int, r: int, w: Cpx, v: Cpx)
    requires ColumnFits(f, fo, m, 4, st, s, u) && 0 <= r < 4
    requires W(st.twiddles, s * m * (r % 4)) == w && W(st.twiddles, s * m * ((r * 2) % 4)) == v
    requires W(st.twiddles, s * m * ((r * 3) % 4)) == Conj(w)
    ensures Row(f, fo, m, 4, st, s, u, r) == Mix4(f, fo, m, st, s, u, w, v)
  {
    hide Mul, Row;
    var g := RowIsSum(f, fo, m, 4, st, s, u, r);
    SmallSums(g);
    assert r * 1 == r;
  }

  /** x0 + t1*a + t2*b + t3*conj(b) + t4*conj(a). */
  ghost function Mix5(f: seq<Cpx>, fo: int, m: int, st: FftState, s: int, u: int, a: Cpx, b: Cpx): Cpx {
    Add(At(f, fo + u),
        Add(Pair(Twiddled(f, fo, m, st.twiddles, s, u, 1), Twiddled(f, fo, m, st.twiddles, s, u, 4), a),
            Pair(Twiddled(f, fo, m, st.twiddles, s, u, 2), Twiddled(f, fo, m, st.twiddles, s, u, 3), b)))
  }

  lemma Column5(f: seq<Cpx>, fo: int, m: int, st: FftState, s: int, u: int, a: Cpx, b: Cpx)
    requires ColumnFits(f, fo, m, 5, st, s, u)
    requires a == W(st.twiddles, s * m * 1) && b == W(st.twiddles, s * m * 2)
    ensures Row(f, fo, m, 5, st, s, u, 0) == Mix5(f, fo, m, st, s, u, ONE, ONE)
    ensures Row(f, fo, m, 5, st, s, u, 1) == Mix5(f, fo, m, st, s, u, a, b)
    ensures Row(f, fo, m, 5, st, s, u, 2) == Mix5(f, fo, m, st, s, u, b, Conj(a))
    ensures Row(f, fo, m, 5, st, s, u, 3) == Mix5(f, fo, m, st, s, u, Conj(b), a)
    ensures Row(f, fo, m, 5, st, s, u, 4) == Mix5(f, fo, m, st, s, u, Conj(a), Conj(b))
  {
    hide Mul, Row, Mix5, W, IsTwiddleTable;
    var tw, sm := st.twiddles, s * m;
    RootZero(st, sm);
    RootConj(st, sm, 5, 1);
    RootConj(st, sm, 5, 2);
    assert W(tw, sm * 3) == Conj(b) && W(tw, sm * 4) == Conj(a);
    Column5Row(f, fo, m, st, s, u, 0, ONE, ONE);
    Column5Row(f, fo, m, st, s, u, 1, a, b);
    Column5Row(f, fo, m, st, s, u, 2, b, Conj(a));
    Column5Row(f, fo, m, st, s, u, 3, Conj(b), a);
    Column5Row(f, fo, m, st, s, u, 4, Conj(a), Conj(b));
  }

  lemma Column5Row(f: seq<Cpx>, fo: int, m: int, st: FftState, s: int, u: int, r: int, a: Cpx, b: Cpx)
    requires ColumnFits(f, fo, m, 5, st, s, u) && 0 <= r < 5
    requires W(st.twiddles, s * m * (r % 5)) == a && W(st.twiddles, s * m * ((r * 2) % 5)) == b
    requires W(st.twiddles, s * m * ((r * 3) % 5)) == Conj(b) && W(st.twiddles, s * m * ((r * 4) % 5)) == Conj(a)
    ensures Row(f, fo, m, 5, st, s, u, r) == Mix5(f, fo, m, st, s, u, a, b)
  {
    hide Mul, Row;
    var g := RowIsSum(f, fo, m, 5, st, s, u, r);
    SmallSums(g);
    assert r * 1 == r;
  }
}
