/** Configuration and the calls an application makes. */
module Transform {
  import opened Complex
  import opened Twiddles
  import opened Dft
  import opened ButterflySpec
  import opened MixedRadix
  import opened Factor
  import opened Inversion

  /** A configuration as kiss_fft_alloc leaves it. */
  ghost predicate Configured(st: FftState) {
    st.nfft >= 1 && st.Valid() && FactorPairs(st.nfft) <= st.factors
  }

  lemma FactorsChain(st: FftState)
    requires Configured(st)
    ensures FactorsFit(st.factors, 0, st.nfft)
  {
    hide IsTwiddleTable;
    assert st.factors[0..] == st.factors;
    PairsChain(st.nfft, st.factors, 0);
  }

  lemma TableOfConjugates(c: Cpx, n: int)
    requires IsUnitRoot(c, n, false)
    ensures IsUnitRoot(Conj(c), n, true)
  {
    hide Mul;
    forall j: nat ensures Pow(Conj(c), j) == Conj(Pow(c, j)) {
      PowOfConj(c, j);
    }
    forall j | 0 < j < n ensures Pow(Conj(c), j) != ONE {
      ConjIsOne(Pow(c, j));
    }
    ConjOne();
    MulComm(c, Conj(c));
    ConjTwice(c);
    if n % 4 == 0 {
      ConjDown();
    }
  }

  lemma {:induction false} PowOfConj(c: Cpx, j: nat)
    ensures Pow(Conj(c), j) == Conj(Pow(c, j))
  {
    hide Mul, Conj;
    if j == 0 {
      ConjOne();
    } else {
      PowOfConj(c, j - 1);
      ConjMul(Pow(c, j - 1), c);
    }
  }

  lemma ConjIsOne(a: Cpx)
    ensures Conj(a) == ONE ==> a == ONE
  {
  }

  lemma ConjTwice(a: Cpx)
    ensures Conj(Conj(a)) == a
  {
  }

  lemma ConjDown()
    ensures Conj(Cpx(0.0, -1.0)) == Cpx(0.0, 1.0)
  {
  }

  /** kiss_fft_alloc: cexp(i) stands for exp(-2*pi*i/nfft), of which root is the first power. */
  method KissFftAlloc(nfft: int, inverseFft: bool, cexp: int -> Cpx, floorSqrt: int, ghost root: Cpx)
    returns (st: FftState)
    requires 1 <= nfft < 0x8000_0000 && IsFloorSqrt(floorSqrt, nfft)
    requires IsUnitRoot(root, nfft, false) && forall i: nat :: cexp(i) == Pow(root, i)
    ensures Configured(st) && st.nfft == nfft && st.inverse == inverseFft
    ensures |st.twiddles| == nfft && forall i :: 0 <= i < nfft ==>
      st.twiddles[i] == if inverseFft then Conj(cexp(i)) else cexp(i)
  {
    hide Mul, IsUnitRoot, IsTwiddleTable, Pow, FactorPairs;
    var tw := FillTable(nfft, inverseFft, cexp);
    var facbuf := new int[2 * MAXFACTORS](_ => 0);
    KfFactor(nfft, facbuf, floorSqrt);
    st := FftState(nfft, inverseFft, facbuf[..], tw);
    TableIsFilled(root, nfft, inverseFft, st.twiddles);
    assert FactorPairs(nfft) <= facbuf[..];
  }

  /** The table loop: one phase for each entry, mirrored for an inverse transform. */
  method FillTable(nfft: nat, inverseFft: bool, cexp: int -> Cpx) returns (table: seq<Cpx>)
    ensures |table| == nfft
    ensures forall i :: 0 <= i < nfft ==> table[i] == if inverseFft then Conj(cexp(i)) else cexp(i)
  {
    hide Conj;
    var tw := new Cpx[nfft](_ => ZERO);
    for i := 0 to nfft
      invariant forall j :: 0 <= j < i ==> tw[j] == if inverseFft then Conj(cexp(j)) else cexp(j)
    {
      tw[i] := if inverseFft then Conj(cexp(i)) else cexp(i);
    }
    table := tw[..];
  }

  /** Negating every phase of a valid table gives a valid inverse table. */
  lemma TableIsFilled(root: Cpx, n: int, inverse: bool, tw: seq<Cpx>)
    requires IsUnitRoot(root, n, false) && |tw| == n
    requires forall i :: 0 <= i < n ==> tw[i] == if inverse then Conj(Pow(root, i)) else Pow(root, i)
    ensures IsTwiddleTable(tw, n, inverse)
  {
    hide Mul, IsUnitRoot, IsTwiddleTable, Pow, Conj;
    if inverse {
      forall j | 0 <= j < n ensures tw[j] == Pow(Conj(root), j) {
        PowOfConj(root, j);
      }
      TableOfConjugates(root, n);
      PowersFormTable(Conj(root), n, true, tw);
    } else {
      PowersFormTable(root, n, false, tw);
    }
  }

  /** kiss_fft_stride: out[k] is the sum over j of in[j*inStride] * tw[(j*k) mod nfft], also when in is out. */
  method KissFftStride(st: FftState, fin: array<Cpx>, fout: array<Cpx>, inStride: nat)
    requires Configured(st) && st.nfft <= fout.Length
    requires InputFits(fin.Length, 0, inStride, st.nfft)
    modifies fout
    ensures forall k :: 0 <= k < st.nfft ==>
      fout[k] == DftAt(old(fin[..]), 0, inStride, st.nfft, st.twiddles, 1, k)
    ensures forall k :: st.nfft <= k < fout.Length ==> fout[k] == old(fout[k])
  {
    hide Mul, IsTwiddleTable, DftAt, FactorPairs;
    FactorsChain(st);
    assert 1 * inStride == inStride;
    assert (1 * st.factors[1]) * st.factors[0] == st.nfft;
    if fin == fout {
      var tmpbuf := new Cpx[st.nfft](_ => ZERO);
      KfWork(tmpbuf, 0, fin, 0, 1, inStride, 0, st);
      forall k | 0 <= k < st.nfft {
        fout[k] := tmpbuf[k];
      }
    } else {
      KfWork(fout, 0, fin, 0, 1, inStride, 0, st);
    }
  }

  method KissFft(cfg: FftState, fin: array<Cpx>, fout: array<Cpx>)
    requires Configured(cfg) && cfg.nfft <= fout.Length && cfg.nfft <= fin.Length
    modifies fout
    ensures forall k :: 0 <= k < cfg.nfft ==>
      fout[k] == DftAt(old(fin[..]), 0, 1, cfg.nfft, cfg.twiddles, 1, k)
    ensures forall k :: cfg.nfft <= k < fout.Length ==> fout[k] == old(fout[k])
  {
    KissFftStride(cfg, fin, fout, 1);
  }

  /** Forward then inverse, in place through the temporary buffer: nfft times the input comes back. */
  method ForwardThenInverse(fwd: FftState, inv: FftState, buf: array<Cpx>)
    requires Configured(fwd) && Configured(inv) && fwd.nfft == inv.nfft == buf.Length
    requires !fwd.inverse && Conjugates(fwd.twiddles, inv.twiddles)
    modifies buf
    ensures forall l :: 0 <= l < buf.Length ==> buf[l] == Scale(fwd.nfft as real, old(buf[l]))
  {
    hide Mul, IsTwiddleTable, DftAt, Conjugates;
    ghost var x := buf[..];
    KissFft(fwd, buf, buf);
    ghost var X := buf[..];
    KissFft(inv, buf, buf);
    forall l | 0 <= l < buf.Length ensures buf[l] == Scale(fwd.nfft as real, x[l]) {
      RoundTrip(x, X, fwd.nfft, fwd.twiddles, inv.twiddles, false, l);
    }
  }

  /**
   * The OpenMP branch of kf_work, the p sub-transforms in any order.
   * It recurses even when one pair is the whole list; pastEnd reports that it would read a pair nobody wrote.
   */
  method KfWorkOmp(Fout: array<Cpx>, f: array<Cpx>, inStride: nat, st: FftState, order: seq<nat>)
    returns (pastEnd: bool)
    requires Fout != f && Configured(st) && st.nfft <= Fout.Length
    requires InputFits(f.Length, 0, inStride, st.nfft)
    requires |st.factors| >= 2 && st.factors[0] <= 5
    requires |order| == st.factors[0] && forall r :: 0 <= r < st.factors[0] ==> r in order
    requires forall i :: 0 <= i < |order| ==> order[i] < st.factors[0]
    modifies Fout
    ensures pastEnd <==> st.nfft <= 5
    ensures !pastEnd ==> Transformed(Fout[..], 0, f[..], 0, inStride, st.nfft, st.twiddles, 1)
    ensures !pastEnd ==> SameOutside(Fout[..], old(Fout[..]), 0, st.nfft)
  {
    hide Mul, Entry, IsTwiddleTable, DftAt, RowsDone, FactorPairs;
    FactorsChain(st);
    SinglePairLengths(st.nfft);
    FirstPair(st.nfft, st.factors);
    var p, m := st.factors[0], st.factors[1];
    ghost var x, tw := f[..], st.twiddles;
    pastEnd := m == 1;
    if pastEnd {
      return;
    }
    assert FactorsFit(st.factors, 2, m);
    InnerStride(p, st.factors[2], st.factors[3], m, st.nfft);
    ghost var rows: set<int> := {};
    SubStage(1, inStride, p, m, st.nfft);
    NoRows(Fout[..], 0, x, 0, inStride, p, m, tw, 1);
    for i := 0 to |order|
      invariant forall r :: 0 <= r < i ==> order[r] in rows
      invariant RowsDone(Fout[..], 0, x, 0, inStride, p, m, tw, 1, rows)
      invariant SameOutside(Fout[..], old(Fout[..]), 0, p * m)
    {
      ghost var G := Fout[..];
      var k := order[i];
      SubCallFits(f.Length, 0, inStride, p, m, k);
      KfWork(Fout, k * m, f, k * inStride, p, inStride, 2, st);
      RowAdded(G, Fout[..], 0, x, 0, inStride, p, m, tw, 1, rows, k);
      rows := rows + {k};
    }
    forall r | 0 <= r < p ensures r in rows {
      assert r in order;
    }
    StageTransforms(Fout[..], 0, x, 0, inStride, p, m, st, 1, rows);
    Recombine(Fout, 0, 1, st, m, p);
  }

  lemma InnerStride(p: nat, a: int, b: int, m: int, n: int)
    requires a * b == m && p * m == n
    ensures (p * b) * a == n
  {
    assert (p * b) * a == p * (a * b);
  }

  lemma FirstPair(n: int, factors: seq<int>)
    requires n >= 1 && FactorPairs(n) <= factors
    ensures |FactorPairs(n)| >= 2 && FactorPairs(n)[0] == factors[0] && FactorPairs(n)[1] == factors[1]
  {
  }

  /** The lengths whose single pair the OpenMP branch runs past. */
  lemma SinglePairLengths(n: int)
    requires n >= 1
    ensures |FactorPairs(n)| >= 2
    ensures (FactorPairs(n)[0] <= 5 && FactorPairs(n)[1] == 1) <==> n <= 5
  {
    QuotientShrinks(n, Radix(n));
    if 2 <= n <= 5 {
      assert n == 2 || n == 3 || n == 4 || n == 5;
    }
  }
}
