/** The inverse-configured transform undoes the forward one, up to the factor nfft. */
module Inversion {
  import opened Complex
  import opened Sums
  import opened Arith
  import opened Twiddles
  import opened Dft

  /** The inverse configuration negates every phase. */
  ghost predicate Conjugates(twf: seq<Cpx>, twi: seq<Cpx>) {
    |twf| == |twi| && forall i :: 0 <= i < |twf| ==> twi[i] == Conj(twf[i])
  }

  lemma TableSize(tw: seq<Cpx>, n: nat, inverse: bool)
    requires IsTwiddleTable(tw, n, inverse)
    ensures |tw| == n >= 1
  {
  }

  lemma InverseEntry(twf: seq<Cpx>, twi: seq<Cpx>, n: nat, inverse: bool, e: int)
    requires IsTwiddleTable(twf, n, inverse) && Conjugates(twf, twi)
    ensures W(twi, e) == W(twf, -e)
  {
    hide Mul, IsTwiddleTable;
    WNeg(twf, n, inverse, e);
    assert W(twi, e) == Conj(W(twf, e)) by {
      TableSize(twf, n, inverse);
    }
  }

  /** Sample j's share in bin k, carried back to sample l. */
  ghost function Back(x: seq<Cpx>, twf: seq<Cpx>, l: int, k: int, j: int): Cpx {
    Mul(At(x, j), W(twf, (j - l) * k))
  }

  lemma BinCarriedBack(x: seq<Cpx>, n: nat, twf: seq<Cpx>, twi: seq<Cpx>, inverse: bool, l: int, k: int)
    requires IsTwiddleTable(twf, n, inverse) && Conjugates(twf, twi)
    ensures Mul(DftAt(x, 0, 1, n, twf, 1, k), W(twi, 1 * l * k)) == Sum(n, j => Back(x, twf, l, k, j))
  {
    hide Mul, IsTwiddleTable, Conjugates;
    var g := j => Term(x, 0, 1, twf, 1, k, j);
    var c := W(twi, 1 * l * k);
    SumMul(n, g, c);
    forall j ensures Mul(g(j), c) == Back(x, twf, l, k, j) {
      TermCarriedBack(x, n, twf, twi, inverse, l, k, j);
    }
    SumExt(n, j => Mul(g(j), c), j => Back(x, twf, l, k, j));
  }

  lemma TermCarriedBack(x: seq<Cpx>, n: nat, twf: seq<Cpx>, twi: seq<Cpx>, inverse: bool, l: int, k: int, j: int)
    requires IsTwiddleTable(twf, n, inverse) && Conjugates(twf, twi)
    ensures Mul(Term(x, 0, 1, twf, 1, k, j), W(twi, 1 * l * k)) == Back(x, twf, l, k, j)
  {
    hide Mul, IsTwiddleTable, Conjugates;
    InverseEntry(twf, twi, n, inverse, 1 * l * k);
    ExponentDifference(j, l, k);
    WAdd(twf, n, inverse, 1 * k * j, -(1 * l * k));
    MulAssoc(At(x, j), W(twf, 1 * k * j), W(twi, 1 * l * k));
  }

  lemma ExponentDifference(j: int, l: int, k: int)
    ensures (j - l) * k == 1 * k * j + -(1 * l * k)
  {
  }

  /** All bins together: only sample l survives, n times. */
  lemma SampleSurvives(x: seq<Cpx>, n: nat, twf: seq<Cpx>, inverse: bool, l: int, j: int)
    requires IsTwiddleTable(twf, n, inverse) && 0 <= l < n && 0 <= j < n
    ensures Sum(n, k => Back(x, twf, l, k, j)) == if j == l then Scale(n as real, At(x, j)) else ZERO
  {
    hide Mul;
    var g := k => W(twf, (j - l) * k);
    RowSum(twf, n, inverse, j - l);
    SumMul(n, g, At(x, j));
    forall k ensures Mul(g(k), At(x, j)) == Back(x, twf, l, k, j) {
      MulComm(g(k), At(x, j));
    }
    SumExt(n, k => Mul(g(k), At(x, j)), k => Back(x, twf, l, k, j));
    MulReal(n as real, At(x, j));
    if j < l {
      DivModUnique(j - l, n, -1, j - l + n);
    } else {
      DivModUnique(j - l, n, 0, j - l);
    }
  }

  lemma MulReal(s: real, a: Cpx)
    ensures Mul(Cpx(s, 0.0), a) == Scale(s, a)
    ensures Mul(ZERO, a) == ZERO
  {
  }

  /** A transform of a transform of the opposite direction is nfft times the input. */
  lemma RoundTrip(x: seq<Cpx>, X: seq<Cpx>, n: nat, twf: seq<Cpx>, twi: seq<Cpx>, inverse: bool, l: int)
    requires IsTwiddleTable(twf, n, inverse) && Conjugates(twf, twi)
    requires |X| == n && forall k :: 0 <= k < n ==> X[k] == DftAt(x, 0, 1, n, twf, 1, k)
    requires 0 <= l < n
    ensures DftAt(X, 0, 1, n, twi, 1, l) == Scale(n as real, At(x, l))
  {
    hide Mul, IsTwiddleTable;
    var bins := k => Term(X, 0, 1, twi, 1, l, k);
    var g := (k: int, j: int) => Back(x, twf, l, k, j);
    forall k | 0 <= k < n ensures bins(k) == Sum(n, j => g(k, j)) {
      BinCarriedBack(x, n, twf, twi, inverse, l, k);
      SumExt(n, j => Back(x, twf, l, k, j), j => g(k, j));
    }
    SumExt(n, bins, k => Sum(n, j => g(k, j)));
    SumSwap(n, n, g);
    var samples := j => Sum(n, k => g(k, j));
    forall j | 0 <= j < n ensures samples(j) == if j == l then Scale(n as real, At(x, j)) else ZERO {
      SampleSurvives(x, n, twf, inverse, l, j);
      SumExt(n, k => Back(x, twf, l, k, j), k => g(k, j));
    }
    SumSingle(n, samples, l);
  }
}
