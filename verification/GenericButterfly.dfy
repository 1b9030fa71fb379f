/** The butterfly for any radix, with its twiddle index kept in range by one conditional subtraction. */
module GenericButterfly {
  import opened Complex
  import opened Sums
  import opened Arith
  import opened Twiddles
  import opened Dft
  import opened ButterflySpec
  import opened Butterflies

  /** The first q terms of output row r of column u, with the index reduced. */
  ghost function PartialEntry(f: seq<Cpx>, fo: int, m: int, tw: seq<Cpx>, s: int, k: int, q: nat): Cpx
    requires m > 0
  {
    Sum(q, j => Term(f, fo + k % m, m, tw, 1, s * k, j))
  }

  lemma PartialStarts(f: seq<Cpx>, fo: int, m: int, st: FftState, s: int, u: int, k: int)
    requires m > 0 && st.Valid() && k % m == u
    ensures PartialEntry(f, fo, m, st.twiddles, s, k, 1) == At(f, fo + u)
    ensures (s * k * (1 - 1)) % st.nfft == 0
  {
    hide Mul;
    assert s * k * (1 - 1) == 0 * st.nfft;
    assert 1 * (s * k) * 0 == 0 * st.nfft;
    WMultiple(st.twiddles, st.nfft, st.inverse, 0);
    MulOne(At(f, fo + k % m));
    assert Sum(0, j => Term(f, fo + k % m, m, st.twiddles, 1, s * k, j)) == ZERO;
  }

  lemma PartialGrows(f: seq<Cpx>, fo: int, m: int, st: FftState, s: int, u: int, k: int, q: nat)
    requires m > 0 && st.Valid() && k % m == u
    ensures PartialEntry(f, fo, m, st.twiddles, s, k, q + 1)
         == Add(PartialEntry(f, fo, m, st.twiddles, s, k, q),
                Mul(At(f, fo + u + q * m), st.twiddles[(s * k * q) % st.nfft]))
  {
    hide Mul;
    assert 1 * (s * k) * q == s * k * q;
  }

  /** Adding fstride*k to a reduced index needs at most one subtraction of nfft. */
  lemma IndexStep(fstride: nat, k: nat, n: nat, q: nat, twidx: nat)
    requires n > 0 && fstride * k < n && q > 0 && twidx == (fstride * k * (q - 1)) % n
    ensures twidx + fstride * k < 2 * n
    ensures (fstride * k * q) % n == if twidx + fstride * k >= n then twidx + fstride * k - n else twidx + fstride * k
  {
    var d := fstride * k;
    assert d * q == d * (q - 1) + d;
    ModAdd(d * (q - 1), d, n);
    DivModUnique(d, n, 0, d);
    if twidx + d >= n {
      DivModUnique(twidx + d, n, 1, twidx + d - n);
    } else {
      DivModUnique(twidx + d, n, 0, twidx + d);
    }
  }

  lemma RowExponentBound(fstride: nat, m: nat, p: nat, n: int, k: nat)
    requires (fstride * m) * p == n && n >= 1 && k < p * m
    ensures 0 <= fstride * k < n
  {
    assert n == fstride * (p * m);
    FactorsPositive(fstride, p * m);
    MulMono(k + 1, p * m, fstride);
    MulSign(fstride, k);
    assert fstride * (k + 1) == fstride * k + fstride;
  }

  method KfBflyGeneric(Fout: array<Cpx>, fo: nat, fstride: nat, st: FftState, m: nat, p: nat)
    requires StageFits(Fout.Length, fo, fstride, st, m, p)
    modifies Fout
    ensures Fout[..] == Butterflied(old(Fout[..]), fo, m, p, st.twiddles, fstride)
  {
    hide Mul, Entry, Progress, Add, Sub, PartialEntry;
    ghost var f, tw := Fout[..], st.twiddles;
    var Norig := st.nfft;
    var scratch := new Cpx[p](_ => ZERO);
    ProgressStarts(f, fo, m, p, tw, fstride);
    for u := 0 to m
      invariant Fout[..] == Progress(f, fo, m, p, tw, fstride, u, 0)
    {
      var k := u;
      for q1 := 0 to p
        invariant k == u + q1 * m
        invariant Fout[..] == Progress(f, fo, m, p, tw, fstride, u, 0)
        invariant forall q :: 0 <= q < q1 ==> scratch[q] == At(f, fo + u + q * m)
      {
        ColumnRead(Fout[..], f, fo, m, p, st, fstride, u, q1);
        scratch[q1] := Fout[fo + k];
        MulSucc(q1, m);
        k := k + m;
      }
      k := u;
      ghost var column := scratch[..];
      for q1 := 0 to p
        invariant k == u + q1 * m && scratch[..] == column
        invariant Fout[..] == Progress(f, fo, m, p, tw, fstride, u, q1)
      {
        ghost var g := Fout[..];
        InRow(u, q1, m, p);
        ProgressRow(f, fo, m, p, tw, fstride, u, q1);
        RowExponentBound(fstride, m, p, Norig, k);
        var twidx := 0;
        Fout[fo + k] := scratch[0];
        PartialStarts(f, fo, m, st, fstride, u, k);
        for q := 1 to p
          invariant Fout[..] == g[fo + k := Fout[fo + k]] && scratch[..] == column
          invariant Fout[fo + k] == PartialEntry(f, fo, m, tw, fstride, k, q)
          invariant twidx == (fstride * k * (q - 1)) % Norig
        {
          IndexStep(fstride, k, Norig, q, twidx);
          PartialGrows(f, fo, m, st, fstride, u, k, q);
          twidx := twidx + fstride * k;
          if twidx >= Norig {
            twidx := twidx - Norig;
          }
          assert scratch[q] == column[q];
          var t := Mul(scratch[q], st.twiddles[twidx]);
          Fout[fo + k] := Add(Fout[fo + k], t);
        }
        EntryIsPartial(f, fo, m, p, tw, fstride, k);
        MulSucc(q1, m);
        k := k + m;
      }
      ProgressColumn(f, fo, m, p, tw, fstride, u);
    }
  }

  lemma EntryIsPartial(f: seq<Cpx>, fo: int, m: int, p: nat, tw: seq<Cpx>, s: int, k: int)
    requires m > 0
    ensures PartialEntry(f, fo, m, tw, s, k, p) == Entry(f, fo, m, p, tw, s, k)
  {
  }
}
