/** The twiddle table of kiss_fft_alloc, described by the laws its entries obey. */
module Twiddles {
  import opened Complex
  import opened Sums
  import opened Arith

  /** tw[i] = exp(-2*pi*i/n), or its conjugate when the configuration is inverse. */
  ghost predicate IsTwiddleTable(tw: seq<Cpx>, n: int, inverse: bool) {
    && n >= 1 && |tw| == n
    && tw[0] == ONE
    && (forall a, b :: 0 <= a < n && 0 <= b < n ==> ExponentsAdd(tw, a, b))
    && (forall a :: 0 <= a < n ==> Mirrors(tw, a))
    && (forall a :: 0 < a < n ==> tw[a] != ONE)
    && (n % 4 == 0 ==> tw[n / 4] == if inverse then Cpx(0.0, 1.0) else Cpx(0.0, -1.0))
  }

  ghost predicate ExponentsAdd(tw: seq<Cpx>, a: int, b: int)
    requires 0 <= a < |tw| && 0 <= b < |tw|
  {
    tw[(a + b) % |tw|] == Mul(tw[a], tw[b])
  }

  ghost predicate Mirrors(tw: seq<Cpx>, a: int)
    requires 0 <= a < |tw|
  {
    tw[(|tw| - a) % |tw|] == Conj(tw[a])
  }

  /** The table read at any integer exponent. */
  ghost function W(tw: seq<Cpx>, e: int): Cpx {
    if |tw| == 0 then ONE else tw[e % |tw|]
  }

  lemma WAdd(tw: seq<Cpx>, n: int, inverse: bool, a: int, b: int)
    requires IsTwiddleTable(tw, n, inverse)
    ensures W(tw, a + b) == Mul(W(tw, a), W(tw, b))
  {
    hide Mul;
    ModAdd(a, b, n);
    assert ExponentsAdd(tw, a % n, b % n);
  }

  lemma WPeriod(tw: seq<Cpx>, e: int, c: int)
    ensures W(tw, e + c * |tw|) == W(tw, e)
  {
    if |tw| > 0 {
      ModPeriod(e, c, |tw|);
    }
  }

  lemma WMultiple(tw: seq<Cpx>, n: int, inverse: bool, c: int)
    requires IsTwiddleTable(tw, n, inverse)
    ensures W(tw, c * n) == ONE
  {
    WPeriod(tw, 0, c);
  }

  lemma WNeg(tw: seq<Cpx>, n: int, inverse: bool, e: int)
    requires IsTwiddleTable(tw, n, inverse)
    ensures W(tw, -e) == Conj(W(tw, e))
  {
    ModNeg(e, n);
    assert Mirrors(tw, e % n);
  }

  /** Orthogonality: the powers of one entry add up to nothing, unless the entry is 1. */
  lemma {:induction false} RowSum(tw: seq<Cpx>, n: int, inverse: bool, d: int)
    requires IsTwiddleTable(tw, n, inverse)
    ensures Sum(n, k => W(tw, d * k)) == if d % n == 0 then Cpx(n as real, 0.0) else ZERO
  {
    var g := k => W(tw, d * k);
    if d % n == 0 {
      forall k | 0 <= k < n ensures g(k) == ONE {
        assert d * k == ((d / n) * k) * n by {
          assert d == (d / n) * n;
        }
        WMultiple(tw, n, inverse, (d / n) * k);
      }
      SumExt(n, g, k => ONE);
      SumConst(n, ONE);
    } else {
      assert g(0) == ONE && g(n) == ONE by {
        WMultiple(tw, n, inverse, d);
        assert W(tw, 0) == ONE;
      }
      SumShift(n, g);
      SumMul(n, g, W(tw, d));
      forall k | 0 <= k < n ensures g(k + 1) == Mul(g(k), W(tw, d)) {
        assert d * (k + 1) == d * k + d;
        WAdd(tw, n, inverse, d * k, d);
      }
      SumExt(n, k => g(k + 1), k => Mul(g(k), W(tw, d)));
      FixedByFactor(Sum(n, g), W(tw, d));
    }
  }

  /** A value that multiplication by w != 1 leaves alone is zero. */
  lemma FixedByFactor(s: Cpx, w: Cpx)
    requires Mul(s, w) == s && w != ONE
    ensures s == ZERO
  {
    assert Mul(s, Sub(w, ONE)) == Sub(Mul(s, w), s) == ZERO;
    NoZeroDivisors(s, Sub(w, ONE));
  }

  ghost function Pow(c: Cpx, e: nat): Cpx {
    if e == 0 then ONE else Mul(Pow(c, e - 1), c)
  }

  lemma {:induction false} PowAdd(c: Cpx, a: nat, b: nat)
    ensures Pow(c, a + b) == Mul(Pow(c, a), Pow(c, b))
  {
    if b == 0 {
      MulOne(Pow(c, a));
    } else {
      PowAdd(c, a, b - 1);
      MulAssoc(Pow(c, a), Pow(c, b - 1), c);
    }
  }

  lemma {:induction false} PowConj(c: Cpx, e: nat)
    requires Mul(c, Conj(c)) == ONE
    ensures Mul(Pow(c, e), Conj(Pow(c, e))) == ONE
  {
    if e > 0 {
      PowConj(c, e - 1);
      UnitProduct(Pow(c, e - 1), c);
    }
  }

  lemma UnitProduct(a: Cpx, b: Cpx)
    requires Mul(a, Conj(a)) == ONE && Mul(b, Conj(b)) == ONE
    ensures Mul(Mul(a, b), Conj(Mul(a, b))) == ONE
  {
    ConjMul(a, b);
    MulAssoc(Mul(a, b), Conj(a), Conj(b));
    MulAssoc(a, b, Conj(a));
    MulComm(b, Conj(a));
    MulAssoc(a, Conj(a), b);
    MulOne(b);
  }

  /** Two inverses of one value are the same. */
  lemma InverseUnique(a: Cpx, b: Cpx, c: Cpx)
    requires Mul(a, b) == ONE && Mul(a, c) == ONE
    ensures b == c
  {
    MulAssoc(b, a, c);
    MulComm(b, a);
    MulOne(b);
    MulOne(c);
  }

  /** c has order n, modulus 1, and turns the way the configuration asks. */
  ghost predicate IsUnitRoot(c: Cpx, n: int, inverse: bool) {
    && n >= 1
    && Pow(c, n) == ONE
    && (forall j :: 0 < j < n ==> Pow(c, j) != ONE)
    && Mul(c, Conj(c)) == ONE
    && (n % 4 == 0 ==> Pow(c, n / 4) == if inverse then Cpx(0.0, 1.0) else Cpx(0.0, -1.0))
  }

  /** The powers of such a root, which is what exp(-2*pi*i*j/n) is, form a table. */
  lemma PowersFormTable(c: Cpx, n: int, inverse: bool, tw: seq<Cpx>)
    requires IsUnitRoot(c, n, inverse)
    requires |tw| == n && forall e :: 0 <= e < n ==> tw[e] == Pow(c, e)
    ensures IsTwiddleTable(tw, n, inverse)
  {
    hide Mul;
    forall a, b | 0 <= a < n && 0 <= b < n ensures ExponentsAdd(tw, a, b) {
      PowAdd(c, a, b);
      PowMod(c, n, inverse, a + b);
    }
    forall a | 0 <= a < n ensures Mirrors(tw, a) {
      PowAdd(c, a, n - a);
      PowConj(c, a);
      InverseUnique(Pow(c, a), Pow(c, n - a), Conj(Pow(c, a)));
      PowMod(c, n, inverse, n - a);
    }
  }

  lemma PowMod(c: Cpx, n: int, inverse: bool, e: nat)
    requires IsUnitRoot(c, n, inverse) && e < 2 * n
    ensures Pow(c, e % n) == Pow(c, e)
  {
    hide Mul;
    if e < n {
      DivModUnique(e, n, 0, e);
    } else {
      PowAdd(c, e - n, n);
      MulOne(Pow(c, e - n));
      DivModUnique(e, n, 1, e - n);
    }
  }

  lemma SmallPowers(c: Cpx)
    ensures Pow(c, 1) == c
    ensures Pow(c, 2) == Mul(c, c)
    ensures Pow(c, 3) == Mul(Mul(c, c), c)
    ensures Pow(c, 4) == Mul(Mul(Mul(c, c), c), c)
  {
    hide Mul;
    MulOne(c);
  }

  lemma QuarterTurns(i: real)
    requires i * i == 1.0
    ensures Mul(Cpx(0.0, i), Cpx(0.0, i)) == Cpx(-1.0, 0.0)
    ensures Mul(Cpx(-1.0, 0.0), Cpx(0.0, i)) == Cpx(0.0, -i)
    ensures Mul(Cpx(0.0, -i), Cpx(0.0, i)) == ONE
    ensures Mul(Cpx(0.0, i), Conj(Cpx(0.0, i))) == ONE
  {
  }

  /** Roots of order 1, 2 and 4 have rational coordinates, so the description is met. */
  lemma UnitRootsExist(inverse: bool)
    ensures IsUnitRoot(ONE, 1, inverse)
    ensures IsUnitRoot(Cpx(-1.0, 0.0), 2, inverse)
    ensures IsUnitRoot(Cpx(0.0, if inverse then 1.0 else -1.0), 4, inverse)
  {
    hide Mul;
    SmallPowers(ONE);
    MulOne(ONE);
    SmallPowers(Cpx(-1.0, 0.0));
    HalfTurn();
    var i := if inverse then 1.0 else -1.0;
    SmallPowers(Cpx(0.0, i));
    QuarterTurns(i);
    forall j | 0 < j < 4 ensures Pow(Cpx(0.0, i), j) != ONE {
      assert j == 1 || j == 2 || j == 3;
    }
  }

  lemma HalfTurn()
    ensures Mul(Cpx(-1.0, 0.0), Cpx(-1.0, 0.0)) == ONE
  {
  }
}
