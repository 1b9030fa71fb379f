/** The discrete Fourier transform: the one-line specification, its decimation and its inverse. */
module Dft {
  import opened Complex
  import opened Sums
  import opened Arith
  import opened Twiddles

  /** x read at any position, zero outside. */
  ghost function At(x: seq<Cpx>, i: int): Cpx {
    if 0 <= i < |x| then x[i] else ZERO
  }

  /** One term of a transform over x[base], x[base+step], ... with twiddle stride s. */
  ghost function Term(x: seq<Cpx>, base: int, step: int, tw: seq<Cpx>, s: int, k: int, j: int): Cpx {
    Mul(At(x, base + j * step), W(tw, s * k * j))
  }

  /** Sum over j < len of x[base + j*step] * tw[(s*k*j) mod n]. */
  ghost function DftAt(x: seq<Cpx>, base: int, step: int, len: nat, tw: seq<Cpx>, s: int, k: int): Cpx {
    Sum(len, j => Term(x, base, step, tw, s, k, j))
  }

  /** What recombining p rows of m makes of a column that starts at f[base]. */
  ghost function Recombined(f: seq<Cpx>, base: int, m: int, p: nat, tw: seq<Cpx>, e: int): Cpx {
    DftAt(f, base, m, p, tw, 1, e)
  }

  /** Decimation in time: a transform of p*m points from p transforms of m points. */
  lemma DecimationInTime(x: seq<Cpx>, base: int, step: int, p: nat, m: nat, tw: seq<Cpx>, inverse: bool, s: int, k: nat)
    requires m > 0 && s * p * m == |tw| && IsTwiddleTable(tw, |tw|, inverse)
    ensures p * m >= 0
    ensures DftAt(x, base, step, p * m, tw, s, k)
         == Sum(p, q => Mul(DftAt(x, base + q * step, step * p, m, tw, s * p, k % m), W(tw, s * k * q)))
  {
    hide Mul;
    var g := j => Term(x, base, step, tw, s, k, j);
    var h := q => Mul(DftAt(x, base + q * step, step * p, m, tw, s * p, k % m), W(tw, s * k * q));
    MulSign(p, m);
    SumDecimate(p, m, g);
    forall q ensures Residue(p, m, g, q) == h(q) {
      ResidueIsSubtransform(x, base, step, p, m, tw, inverse, s, k, q);
    }
    SumExt(p, q => Residue(p, m, g, q), h);
  }

  lemma ResidueIsSubtransform(x: seq<Cpx>, base: int, step: int, p: nat, m: nat, tw: seq<Cpx>, inverse: bool,
                              s: int, k: nat, q: int)
    requires m > 0 && s * p * m == |tw| && IsTwiddleTable(tw, |tw|, inverse)
    ensures Residue(p, m, j => Term(x, base, step, tw, s, k, j), q)
         == Mul(DftAt(x, base + q * step, step * p, m, tw, s * p, k % m), W(tw, s * k * q))
  {
    hide Mul;
    var g := j => Term(x, base, step, tw, s, k, j);
    var sub := j => Term(x, base + q * step, step * p, tw, s * p, k % m, j);
    var c := W(tw, s * k * q);
    forall j ensures g(q + p * j) == Mul(sub(j), c) {
      TermFactors(x, base, step, p, m, tw, inverse, s, k, q, j);
    }
    SumExt(m, j => g(q + p * j), j => Mul(sub(j), c));
    SumMul(m, sub, c);
  }

  lemma TermFactors(x: seq<Cpx>, base: int, step: int, p: nat, m: nat, tw: seq<Cpx>, inverse: bool,
                    s: int, k: nat, q: int, j: int)
    requires m > 0 && s * p * m == |tw| && IsTwiddleTable(tw, |tw|, inverse)
    ensures Term(x, base, step, tw, s, k, q + p * j)
         == Mul(Term(x, base + q * step, step * p, tw, s * p, k % m, j), W(tw, s * k * q))
  {
    hide Mul;
    PositionSplits(base, step, p, q, j);
    ExponentSplits(s, k, p, m, q, j);
    var a := At(x, base + (q + p * j) * step);
    var e := (s * p) * (k % m) * j;
    WPeriod(tw, e + s * k * q, (k / m) * j);
    WAdd(tw, |tw|, inverse, e, s * k * q);
    MulAssoc(a, W(tw, e), W(tw, s * k * q));
  }

  lemma PositionSplits(base: int, step: int, p: int, q: int, j: int)
    ensures base + (q + p * j) * step == (base + q * step) + j * (step * p)
  {
    assert (p * j) * step == j * (step * p);
  }

  lemma ExponentSplits(s: int, k: nat, p: int, m: int, q: int, j: int)
    requires m > 0
    ensures s * k * (q + p * j) == (s * p) * (k % m) * j + s * k * q + ((k / m) * j) * (s * p * m)
  {
    var r, d := k % m, k / m;
    assert k == d * m + r;
    assert s * k * (q + p * j) == s * k * q + (s * p * j) * k by {
      assert (s * k) * (p * j) == (s * p * j) * k;
    }
    assert (s * p * j) * k == (s * p * j) * (d * m) + (s * p * j) * r;
    assert (s * p * j) * r == (s * p) * r * j;
    assert (s * p * j) * (d * m) == (d * j) * (s * p * m);
  }
}
