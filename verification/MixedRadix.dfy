/** The recursive mixed-radix transform and its entry points. */
module MixedRadix {
  import opened Complex
  import opened Sums
  import opened Arith
  import opened Twiddles
  import opened Dft
  import opened ButterflySpec
  import opened Butterflies
  import opened GenericButterfly

  /** From position i the list holds radix and remaining length, down to remaining length 1. */
  ghost predicate FactorsFit(factors: seq<int>, i: nat, n: int)
    decreases |factors| - i
  {
    && i + 1 < |factors|
    && factors[i] >= 1 && factors[i + 1] >= 1
    && factors[i] * factors[i + 1] == n
    && (factors[i + 1] != 1 ==> FactorsFit(factors, i + 2, factors[i + 1]))
  }

  /** The input positions of a transform of len points lie inside the buffer. */
  ghost predicate InputFits(length: int, fb: nat, step: nat, len: int) {
    len >= 1 && fb + (len - 1) * step < length
  }

  /** Entry i of the p sub-transforms of m points laid out one after the other. */
  ghost function SubEntry(x: seq<Cpx>, fb: int, step: int, p: int, m: nat, tw: seq<Cpx>, s: int, i: int): Cpx
    requires m > 0
  {
    DftAt(x, fb + (i / m) * step, step * p, m, tw, s * p, i % m)
  }

  /** The sub-transforms with a number in rows are in place. */
  ghost predicate RowsDone(F: seq<Cpx>, fo: nat, x: seq<Cpx>, fb: nat, step: nat, p: nat, m: nat, tw: seq<Cpx>,
                           s: nat, rows: set<int>)
    requires m > 0 && fo + p * m <= |F|
  {
    forall i :: 0 <= i < p * m && i / m in rows ==> F[fo + i] == SubEntry(x, fb, step, p, m, tw, s, i)
  }

  ghost predicate SameOutside(F: seq<Cpx>, G: seq<Cpx>, lo: int, hi: int) {
    |F| == |G| && forall i :: 0 <= i < |F| && !(lo <= i < hi) ==> F[i] == G[i]
  }

  ghost predicate Transformed(F: seq<Cpx>, fo: nat, x: seq<Cpx>, fb: nat, step: nat, len: nat, tw: seq<Cpx>, s: nat)
    requires fo + len <= |F|
  {
    forall k :: 0 <= k < len ==> F[fo + k] == DftAt(x, fb, step, len, tw, s, k)
  }

  /** Once all rows are in place, recombining them yields the longer transform. */
  lemma StageCorrect(F: seq<Cpx>, fo: nat, x: seq<Cpx>, fb: nat, step: nat, p: nat, m: nat, st: FftState, s: nat,
                     rows: set<int>, k: nat)
    requires st.Valid() && m > 0 && s * p * m == st.nfft && fo + p * m <= |F| && k < p * m
    requires RowsDone(F, fo, x, fb, step, p, m, st.twiddles, s, rows) && forall r :: 0 <= r < p ==> r in rows
    ensures Entry(F, fo, m, p, st.twiddles, s, k) == DftAt(x, fb, step, p * m, st.twiddles, s, k)
  {
    hide Mul;
    var tw := st.twiddles;
    var g := q => Term(F, fo + k % m, m, tw, 1, s * k, q);
    var h := q => Mul(DftAt(x, fb + q * step, step * p, m, tw, s * p, k % m), W(tw, s * k * q));
    forall q | 0 <= q < p ensures g(q) == h(q) {
      InRow(k % m, q, m, p);
      assert F[fo + (k % m + q * m)] == SubEntry(x, fb, step, p, m, tw, s, k % m + q * m);
      assert 1 * (s * k) * q == s * k * q;
    }
    SumExt(p, g, h);
    DecimationInTime(x, fb, step, p, m, tw, st.inverse, s, k);
  }

  lemma StageTransforms(F: seq<Cpx>, fo: nat, x: seq<Cpx>, fb: nat, step: nat, p: nat, m: nat, st: FftState, s: nat,
                        rows: set<int>)
    requires st.Valid() && m > 0 && s * p * m == st.nfft && fo + p * m <= |F|
    requires RowsDone(F, fo, x, fb, step, p, m, st.twiddles, s, rows) && forall r :: 0 <= r < p ==> r in rows
    ensures p * m >= 0
    ensures Transformed(Butterflied(F, fo, m, p, st.twiddles, s), fo, x, fb, step, p * m, st.twiddles, s)
    ensures SameOutside(Butterflied(F, fo, m, p, st.twiddles, s), F, fo, fo + p * m)
  {
    hide Mul, Entry, IsTwiddleTable, DftAt, RowsDone;
    MulSign(p, m);
    var B := Butterflied(F, fo, m, p, st.twiddles, s);
    forall k | 0 <= k < p * m ensures B[fo + k] == DftAt(x, fb, step, p * m, st.twiddles, s, k) {
      StageCorrect(F, fo, x, fb, step, p, m, st, s, rows, k);
    }
  }

  /** A transform of one point is the point. */
  lemma OnePoint(x: seq<Cpx>, fb: int, step: int, st: FftState, s: int)
    requires st.Valid()
    ensures DftAt(x, fb, step, 1, st.twiddles, s, 0) == At(x, fb)
  {
    hide Mul;
    var g := j => Term(x, fb, step, st.twiddles, s, 0, j);
    assert Sum(1, g) == Add(Sum(0, g), g(0));
    assert s * 0 * 0 == 0 * st.nfft && 0 * step == 0;
    WMultiple(st.twiddles, st.nfft, st.inverse, 0);
    MulOne(At(x, fb));
  }

  /** Recombine p rows with the kernel for the radix. */
  method Recombine(Fout: array<Cpx>, fo: nat, fstride: nat, st: FftState, m: nat, p: nat)
    requires StageFits(Fout.Length, fo, fstride, st, m, p)
    modifies Fout
    ensures Fout[..] == Butterflied(old(Fout[..]), fo, m, p, st.twiddles, fstride)
  {
    match p
    case 2 => KfBfly2(Fout, fo, fstride, st, m);
    case 3 => KfBfly3(Fout, fo, fstride, st, m);
    case 4 => KfBfly4(Fout, fo, fstride, st, m);
    case 5 => KfBfly5(Fout, fo, fstride, st, m);
    case _ => KfBflyGeneric(Fout, fo, fstride, st, m, p);
  }

  /** Placing one more sub-transform keeps the others, whatever the order. */
  lemma RowAdded(G: seq<Cpx>, F: seq<Cpx>, fo: nat, x: seq<Cpx>, fb: nat, step: nat, p: nat, m: nat, tw: seq<Cpx>,
                 s: nat, rows: set<int>, q: nat)
    requires m > 0 && q < p && fo + p * m <= |F| && fo + q * m + m <= |F| && fo + q * m >= 0
    requires SameOutside(F, G, fo + q * m, fo + q * m + m)
    requires RowsDone(G, fo, x, fb, step, p, m, tw, s, rows)
    requires Transformed(F, fo + q * m, x, fb + q * step, step * p, m, tw, s * p)
    ensures RowsDone(F, fo, x, fb, step, p, m, tw, s, rows + {q})
    ensures SameOutside(F, G, fo, fo + p * m)
  {
    MulSucc(q, m);
    MulMono(q + 1, p, m);
    forall i | 0 <= i < p * m && i / m in rows + {q} ensures F[fo + i] == SubEntry(x, fb, step, p, m, tw, s, i) {
      RowColumn(i, m, p);
      if i / m == q {
        assert F[fo + q * m + i % m] == DftAt(x, fb + q * step, step * p, m, tw, s * p, i % m);
      } else {
        if i / m < q {
          MulMono(i / m + 1, q, m);
          MulSucc(i / m, m);
        } else {
          MulMono(q + 1, i / m, m);
        }
        assert G[fo + i] == SubEntry(x, fb, step, p, m, tw, s, i);
      }
    }
  }

  lemma NoRows(F: seq<Cpx>, fo: nat, x: seq<Cpx>, fb: nat, step: nat, p: nat, m: nat, tw: seq<Cpx>, s: nat)
    requires m > 0 && fo + p * m <= |F|
    ensures RowsDone(F, fo, x, fb, step, p, m, tw, s, {})
  {
  }

  /** Sub-transform q of a stage reads and writes inside what the stage may use. */
  lemma SubCallFits(length: int, fb: nat, step: nat, p: nat, m: nat, q: nat)
    requires m >= 1 && q < p && InputFits(length, fb, step, p * m)
    ensures 0 <= q * step && InputFits(length, fb + q * step, step * p, m)
    ensures 0 <= q * m && q * m + m <= p * m
  {
    MulSign(q, step);
    MulSign(q, m);
    MulSucc(q, m);
    MulMono(q + 1, p, m);
    assert q * step + (m - 1) * (step * p) == (q + (m - 1) * p) * step;
    assert q + (m - 1) * p <= p * m - 1;
    MulMono(q + (m - 1) * p, p * m - 1, step);
  }

  lemma SubStage(fstride: nat, inStride: nat, p: nat, m: nat, n: int)
    requires (fstride * m) * p == n
    ensures (fstride * p) * m == n && (fstride * p) * inStride == (fstride * inStride) * p
    ensures fstride * p * m == n && fstride * (p * m) == n && fstride * p >= 0
  {
    MulSign(fstride, p);
  }

  method KfWork(Fout: array<Cpx>, fo: nat, f: array<Cpx>, fb: nat, fstride: nat, inStride: nat, fi: nat, st: FftState)
    requires Fout != f && st.Valid()
    requires fi + 1 < |st.factors| && FactorsFit(st.factors, fi, st.factors[fi] * st.factors[fi + 1])
    requires (fstride * st.factors[fi + 1]) * st.factors[fi] == st.nfft
    requires fo + st.factors[fi] * st.factors[fi + 1] <= Fout.Length
    requires fstride * inStride >= 0
      && InputFits(f.Length, fb, fstride * inStride, st.factors[fi] * st.factors[fi + 1])
    modifies Fout
    ensures Transformed(Fout[..], fo, f[..], fb, fstride * inStride, st.factors[fi] * st.factors[fi + 1], st.twiddles,
                        fstride)
    ensures SameOutside(Fout[..], old(Fout[..]), fo, fo + st.factors[fi] * st.factors[fi + 1])
    decreases |st.factors| - fi
  {
    hide Mul, Entry, IsTwiddleTable, DftAt, RowsDone;
    var p, m := st.factors[fi], st.factors[fi + 1];
    ghost var x, step, tw := f[..], fstride * inStride, st.twiddles;
    var F, fpos, end := fo, fb, fo + p * m;
    ghost var q, rows: set<int> := 0, {};
    SubStage(fstride, inStride, p, m, st.nfft);
    assert RowsDone(Fout[..], fo, x, fb, step, p, m, tw, fstride, rows) by {
      NoRows(Fout[..], fo, x, fb, step, p, m, tw, fstride);
    }
    while F != end
      invariant 0 <= q <= p && F == fo + q * m && fpos == fb + q * step
      invariant forall r :: 0 <= r < q ==> r in rows
      invariant RowsDone(Fout[..], fo, x, fb, step, p, m, tw, fstride, rows)
      invariant SameOutside(Fout[..], old(Fout[..]), fo, end)
      decreases p - q
    {
      ghost var G := Fout[..];
      RowsLeft(q, p, m);
      SubCallFits(f.Length, fb, step, p, m, q);
      if m == 1 {
        Fout[F] := f[fpos];
        OnePoint(x, fb + q * step, step * p, st, fstride * p);
      } else {
        KfWork(Fout, F, f, fpos, fstride * p, inStride, fi + 2, st);
      }
      RowAdded(G, Fout[..], fo, x, fb, step, p, m, tw, fstride, rows, q);
      MulSucc(q, m);
      MulSucc(q, step);
      fpos := fpos + fstride * inStride;
      F := F + m;
      q := q + 1;
      rows := rows + {q - 1};
    }
    RowsLeft(q, p, m);
    StageTransforms(Fout[..], fo, x, fb, step, p, m, st, fstride, rows);
    Recombine(Fout, fo, fstride, st, m, p);
  }

  lemma RowsLeft(q: nat, p: nat, m: nat)
    requires m >= 1 && q <= p
    ensures q * m == p * m ==> q == p
  {
    MulSucc(q, m);
    if q < p {
      MulMono(q + 1, p, m);
    }
  }
}
