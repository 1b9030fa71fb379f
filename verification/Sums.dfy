/** Finite sums of complex terms, and the rearrangements the transform's proof uses. */
module Sums {
  import opened Complex

  /** g(0) + ... + g(n-1), added left to right. */
  ghost function Sum(n: nat, g: int -> Cpx): Cpx {
    if n == 0 then ZERO else Add(Sum(n - 1, g), g(n - 1))
  }

  lemma {:induction false} SumExt(n: nat, g: int -> Cpx, h: int -> Cpx)
    requires forall i :: 0 <= i < n ==> g(i) == h(i)
    ensures Sum(n, g) == Sum(n, h)
  {
    if n > 0 {
      SumExt(n - 1, g, h);
    }
  }

  lemma {:induction false} SumAdd(n: nat, g: int -> Cpx, h: int -> Cpx)
    ensures Sum(n, i => Add(g(i), h(i))) == Add(Sum(n, g), Sum(n, h))
  {
    if n > 0 {
      SumAdd(n - 1, g, h);
    }
  }

  lemma {:induction false} SumMul(n: nat, g: int -> Cpx, c: Cpx)
    ensures Mul(Sum(n, g), c) == Sum(n, i => Mul(g(i), c))
  {
    if n > 0 {
      SumMul(n - 1, g, c);
      MulAddDistr(c, Sum(n - 1, g), g(n - 1));
    }
  }

  lemma {:induction false} SumZero(n: nat, g: int -> Cpx)
    requires forall i :: 0 <= i < n ==> g(i) == ZERO
    ensures Sum(n, g) == ZERO
  {
    if n > 0 {
      SumZero(n - 1, g);
    }
  }

  lemma {:induction false} SumConst(n: nat, c: Cpx)
    ensures Sum(n, i => c) == Scale(n as real, c)
  {
    if n > 0 {
      SumConst(n - 1, c);
    }
  }

  /** Only one term is not zero. */
  lemma {:induction false} SumSingle(n: nat, g: int -> Cpx, k: nat)
    requires k < n
    requires forall i :: 0 <= i < n && i != k ==> g(i) == ZERO
    ensures Sum(n, g) == g(k)
  {
    if k == n - 1 {
      SumZero(n - 1, g);
    } else {
      SumSingle(n - 1, g, k);
    }
  }

  lemma {:induction false} SumSplit(a: nat, b: nat, g: int -> Cpx)
    ensures Sum(a + b, g) == Add(Sum(a, g), Sum(b, i => g(a + i)))
  {
    if b > 0 {
      SumSplit(a, b - 1, g);
    }
  }

  /** The first and the last term of a rotated sum are exchanged. */
  lemma {:induction false} SumShift(n: nat, g: int -> Cpx)
    requires g(n) == g(0)
    ensures Sum(n, i => g(i + 1)) == Sum(n, g)
  {
    SumShiftOpen(n, g);
  }

  lemma {:induction false} SumShiftOpen(n: nat, g: int -> Cpx)
    ensures Add(Sum(n, i => g(i + 1)), g(0)) == Add(Sum(n, g), g(n))
  {
    if n > 0 {
      SumShiftOpen(n - 1, g);
    }
  }

  lemma {:induction false} SumSwap(p: nat, m: nat, g: (int, int) -> Cpx)
    ensures Sum(p, q => Sum(m, j => g(q, j))) == Sum(m, j => Sum(p, q => g(q, j)))
  {
    var columns := (j: int) => Sum(p, q => g(q, j));
    if p == 0 {
      SumZero(m, columns);
    } else {
      SumSwap(p - 1, m, g);
      var inner := (j: int) => Sum(p - 1, q => g(q, j));
      var last := (j: int) => g(p - 1, j);
      SumAdd(m, inner, last);
      SumExt(m, j => Add(inner(j), last(j)), columns);
    }
  }

  /** The terms whose index is q modulo p. */
  ghost function Residue(p: nat, m: nat, g: int -> Cpx, q: int): Cpx {
    Sum(m, j => g(q + p * j))
  }

  /** Decimation: a sum of p*m terms, taken one residue modulo p after the other. */
  lemma {:induction false} SumDecimate(p: nat, m: nat, g: int -> Cpx)
    ensures p * m >= 0
    ensures Sum(p * m, g) == Sum(p, q => Residue(p, m, g, q))
  {
    if m == 0 {
      SumZero(p, q => Residue(p, m, g, q));
    } else {
      SumDecimate(p, m - 1, g);
      SumSplit(p * (m - 1), p, g);
      MulPred(p, m);
      DecimateStep(p, m, g);
    }
  }

  lemma MulPred(p: nat, m: nat)
    requires m > 0
    ensures p * m == p * (m - 1) + p && p * (m - 1) >= 0
  {
  }

  lemma DecimateStep(p: nat, m: nat, g: int -> Cpx)
    requires m > 0
    ensures Sum(p, q => Residue(p, m, g, q))
         == Add(Sum(p, q => Residue(p, m - 1, g, q)), Sum(p, i => g(p * (m - 1) + i)))
  {
    var head := q => Residue(p, m - 1, g, q);
    var last := i => g(p * (m - 1) + i);
    SumAdd(p, head, last);
    SumExt(p, q => Add(head(q), last(q)), q => Residue(p, m, g, q));
  }
}
