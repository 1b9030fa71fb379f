/** Exact complex numbers, the value type of the transform (kiss_fft_cpx). */
module Complex {

  datatype Cpx = Cpx(re: real, im: real)

  const ZERO := Cpx(0.0, 0.0)
  const ONE := Cpx(1.0, 0.0)
  const MINUS_ONE := Cpx(-1.0, 0.0)

  function Add(a: Cpx, b: Cpx): Cpx {
    Cpx(a.re + b.re, a.im + b.im)
  }

  function Sub(a: Cpx, b: Cpx): Cpx {
    Cpx(a.re - b.re, a.im - b.im)
  }

  function Mul(a: Cpx, b: Cpx): Cpx {
    Cpx(a.re * b.re - a.im * b.im, a.re * b.im + a.im * b.re)
  }

  function Conj(a: Cpx): Cpx {
    Cpx(a.re, -a.im)
  }

  function Scale(s: real, a: Cpx): Cpx {
    Cpx(s * a.re, s * a.im)
  }

  lemma MulAssoc(a: Cpx, b: Cpx, c: Cpx)
    ensures Mul(Mul(a, b), c) == Mul(a, Mul(b, c))
  {
    assert Mul(Mul(a, b), c).re
        == a.re * b.re * c.re - a.im * b.im * c.re - a.re * b.im * c.im - a.im * b.re * c.im
        == Mul(a, Mul(b, c)).re;
    assert Mul(Mul(a, b), c).im
        == a.re * b.re * c.im - a.im * b.im * c.im + a.re * b.im * c.re + a.im * b.re * c.re
        == Mul(a, Mul(b, c)).im;
  }

  lemma MulComm(a: Cpx, b: Cpx)
    ensures Mul(a, b) == Mul(b, a)
  {
  }

  lemma MulOne(a: Cpx)
    ensures Mul(a, ONE) == a == Mul(ONE, a)
  {
  }

  lemma MulMinusOne(a: Cpx)
    ensures Mul(a, MINUS_ONE) == Sub(ZERO, a)
  {
  }

  lemma ConjOne()
    ensures Conj(ONE) == ONE
  {
  }

  lemma ConjMinusOne()
    ensures Conj(MINUS_ONE) == MINUS_ONE
  {
  }

  lemma ConjMul(a: Cpx, b: Cpx)
    ensures Conj(Mul(a, b)) == Mul(Conj(a), Conj(b))
  {
  }

  lemma MulAddDistr(a: Cpx, b: Cpx, c: Cpx)
    ensures Mul(a, Add(b, c)) == Add(Mul(a, b), Mul(a, c))
    ensures Mul(Add(b, c), a) == Add(Mul(b, a), Mul(c, a))
  {
  }

  lemma RealNoZeroDivisors(x: real, y: real)
    ensures x * y == 0.0 <==> x == 0.0 || y == 0.0
  {
    if x != 0.0 {
      assert y == (x * y) / x;
    }
  }

  lemma SumOfSquares(x: real, y: real)
    ensures x * x + y * y == 0.0 ==> x == 0.0 && y == 0.0
  {
    assert x * x >= 0.0 && y * y >= 0.0;
    RealNoZeroDivisors(x, x);
    RealNoZeroDivisors(y, y);
  }

  /** A product is zero only when a factor is. */
  lemma NoZeroDivisors(a: Cpx, b: Cpx)
    requires Mul(a, b) == ZERO
    ensures a == ZERO || b == ZERO
  {
    var n := a.re * a.re + a.im * a.im;
    SumOfSquares(a.re, a.im);
    if n != 0.0 {
      CancelNorm(a.re, a.im, b.re, b.im);
      RealNoZeroDivisors(n, b.re);
      RealNoZeroDivisors(n, b.im);
    }
  }

  lemma CancelNorm(x: real, y: real, u: real, v: real)
    requires x * u - y * v == 0.0 && x * v + y * u == 0.0
    ensures (x * x + y * y) * u == 0.0 && (x * x + y * y) * v == 0.0
  {
    assert (x * x + y * y) * u == x * (x * u - y * v) + y * (x * v + y * u);
    assert (x * x + y * y) * v == x * (x * v + y * u) - y * (x * u - y * v);
  }
}
