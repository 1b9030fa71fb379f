/** Integer facts the index arithmetic rests on. */
module Arith {

  lemma MulSign(a: nat, b: nat)
    ensures a * b >= 0
  {
  }

  lemma MulSucc(a: int, b: int)
    ensures (a + 1) * b == a * b + b && b * (a + 1) == b * a + b
  {
  }

  lemma FactorsPositive(a: nat, b: nat)
    requires a * b >= 1
    ensures a >= 1 && b >= 1
  {
  }

  lemma MulMono(a: int, b: int, c: nat)
    requires a <= b
    ensures a * c <= b * c && c * a <= c * b
  {
  }

  lemma DivModUnique(x: int, n: int, q: int, r: int)
    requires n > 0 && 0 <= r < n && x == q * n + r
    ensures x / n == q && x % n == r
  {
    var d := q - x / n;
    assert x == (x / n) * n + x % n;
    assert d * n == x % n - r by {
      assert d * n == q * n - (x / n) * n;
    }
    if d >= 1 {
      MulMono(1, d, n);
    } else if d <= -1 {
      MulMono(d, -1, n);
    }
  }

  lemma ModPeriod(a: int, c: int, n: int)
    requires n > 0
    ensures (a + c * n) % n == a % n
  {
    assert a + c * n == (a / n + c) * n + a % n;
    DivModUnique(a + c * n, n, a / n + c, a % n);
  }

  lemma ModAdd(a: int, b: int, n: int)
    requires n > 0
    ensures (a % n + b % n) % n == (a + b) % n
  {
    assert a + b == (a % n + b % n) + (a / n + b / n) * n;
    ModPeriod(a % n + b % n, a / n + b / n, n);
  }

  lemma ModNeg(a: int, n: int)
    requires n > 0
    ensures (-a) % n == (n - a % n) % n
  {
    assert -a == (n - a % n) + (-(a / n) - 1) * n by {
      assert a == (a / n) * n + a % n;
      assert (-(a / n) - 1) * n == -((a / n) * n) - n;
    }
    ModPeriod(n - a % n, -(a / n) - 1, n);
  }

  /** The column u of an array of p rows of m holds exactly the positions u + q*m. */
  lemma RowColumn(k: int, m: int, p: int)
    requires m > 0 && 0 <= k < p * m
    ensures k == k % m + (k / m) * m && 0 <= k / m < p
  {
    if k / m >= p {
      MulMono(p, k / m, m);
    }
  }

  lemma InRow(u: int, q: int, m: int, p: int)
    requires 0 <= u < m && 0 <= q < p
    ensures 0 <= u + q * m < p * m
    ensures (u + q * m) % m == u && (u + q * m) / m == q
  {
    MulMono(q + 1, p, m);
    MulMono(0, q, m);
    DivModUnique(u + q * m, m, q, u);
  }
}
