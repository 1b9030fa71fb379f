/** What a butterfly must do to an array, and why the short kernels do it. */
module ButterflySpec {
  import opened Complex
  import opened Sums
  import opened Arith
  import opened Twiddles
  import opened Dft

  /** The configuration kiss_fft_alloc builds (struct kiss_fft_state). */
  datatype FftState = FftState(nfft: int, inverse: bool, factors: seq<int>, twiddles: seq<Cpx>) {
    ghost predicate Valid() {
      IsTwiddleTable(twiddles, nfft, inverse)
    }
  }

  /** Output k of recombining the p rows of m that start at f[fo]. */
  ghost function Entry(f: seq<Cpx>, fo: int, m: int, p: nat, tw: seq<Cpx>, s: int, k: int): Cpx
    requires m > 0
  {
    Recombined(f, fo + k % m, m, p, tw, s * k)
  }

  /** f with the columns below u recombined, and of column u the rows below r. */
  ghost function Progress(f: seq<Cpx>, fo: int, m: int, p: nat, tw: seq<Cpx>, s: int, u: int, r: int): (g: seq<Cpx>)
    requires m > 0
    ensures |g| == |f|
  {
    seq(|f|, i requires 0 <= i < |f| =>
      if fo <= i < fo + p * m && ((i - fo) % m < u || ((i - fo) % m == u && (i - fo) / m < r))
      then Entry(f, fo, m, p, tw, s, i - fo)
      else f[i])
  }

  /** f with all of its p*m entries from fo on recombined, and nothing else touched. */
  ghost function Butterflied(f: seq<Cpx>, fo: int, m: int, p: nat, tw: seq<Cpx>, s: int): (g: seq<Cpx>)
    requires m > 0
    ensures |g| == |f|
    ensures forall i :: 0 <= i < |f| && !(fo <= i < fo + p * m) ==> g[i] == f[i]
    ensures forall i :: 0 <= i < |f| && fo <= i < fo + p * m ==> g[i] == Entry(f, fo, m, p, tw, s, i - fo)
  {
    Progress(f, fo, m, p, tw, s, m, 0)
  }

  lemma ProgressStarts(f: seq<Cpx>, fo: int, m: int, p: nat, tw: seq<Cpx>, s: int)
    requires m > 0
    ensures Progress(f, fo, m, p, tw, s, 0, 0) == f
  {
  }

  lemma ProgressRow(f: seq<Cpx>, fo: int, m: int, p: nat, tw: seq<Cpx>, s: int, u: int, r: int)
    requires 0 <= u < m && 0 <= r < p && 0 <= fo && fo + p * m <= |f|
    ensures 0 <= u + r * m < p * m
    ensures Progress(f, fo, m, p, tw, s, u, r)[fo + u + r * m] == f[fo + u + r * m]
    ensures Progress(f, fo, m, p, tw, s, u, r)[fo + u + r * m := Entry(f, fo, m, p, tw, s, u + r * m)]
         == Progress(f, fo, m, p, tw, s, u, r + 1)
  {
    InRow(u, r, m, p);
    var g := Progress(f, fo, m, p, tw, s, u, r)[fo + u + r * m := Entry(f, fo, m, p, tw, s, u + r * m)];
    var h := Progress(f, fo, m, p, tw, s, u, r + 1);
    forall i | 0 <= i < |f| ensures g[i] == h[i] {
      if fo <= i < fo + p * m && (i - fo) % m == u && (i - fo) / m == r {
        RowColumn(i - fo, m, p);
      }
    }
  }

  lemma ProgressColumn(f: seq<Cpx>, fo: int, m: int, p: nat, tw: seq<Cpx>, s: int, u: int)
    requires 0 <= u < m
    ensures Progress(f, fo, m, p, tw, s, u, p) == Progress(f, fo, m, p, tw, s, u + 1, 0)
  {
    var g, h := Progress(f, fo, m, p, tw, s, u, p), Progress(f, fo, m, p, tw, s, u + 1, 0);
    forall i | 0 <= i < |f| ensures g[i] == h[i] {
      if fo <= i < fo + p * m {
        RowColumn(i - fo, m, p);
      }
    }
  }

  /** Row q of column u after multiplication by its own twiddle. */
  ghost function Twiddled(f: seq<Cpx>, fo: int, m: int, tw: seq<Cpx>, s: int, u: int, q: int): Cpx {
    Mul(At(f, fo + u + q * m), W(tw, s * u * q))
  }

  /** Output row r of column u is a p-point transform of the twiddled column. */
  lemma EntryIsSmallTransform(f: seq<Cpx>, fo: int, m: int, p: nat, st: FftState, s: int, u: int, r: int)
    requires st.Valid() && 0 <= u < m && 0 <= r < p
    ensures Entry(f, fo, m, p, st.twiddles, s, u + r * m)
         == Sum(p, q => Mul(Twiddled(f, fo, m, st.twiddles, s, u, q), W(st.twiddles, (s * m) * (r * q))))
  {
    hide Mul;
    var tw := st.twiddles;
    InRow(u, r, m, p);
    var g := q => Term(f, fo + u, m, tw, 1, s * (u + r * m), q);
    var h := q => Mul(Twiddled(f, fo, m, tw, s, u, q), W(tw, (s * m) * (r * q)));
    forall q ensures g(q) == h(q) {
      TermIsTwiddled(f, fo, m, st, s, u, r, q);
    }
    SumExt(p, g, h);
  }

  lemma TermIsTwiddled(f: seq<Cpx>, fo: int, m: int, st: FftState, s: int, u: int, r: int, q: int)
    requires st.Valid()
    ensures Term(f, fo + u, m, st.twiddles, 1, s * (u + r * m), q)
         == Mul(Twiddled(f, fo, m, st.twiddles, s, u, q), W(st.twiddles, (s * m) * (r * q)))
  {
    hide Mul;
    RowExponent(s, u, r, m, q);
    WAdd(st.twiddles, st.nfft, st.inverse, s * u * q, (s * m) * (r * q));
    MulAssoc(At(f, fo + u + q * m), W(st.twiddles, s * u * q), W(st.twiddles, (s * m) * (r * q)));
  }

  lemma RowExponent(s: int, u: int, r: int, m: int, q: int)
    ensures 1 * (s * (u + r * m)) * q == s * u * q + (s * m) * (r * q)
  {
    assert s * (u + r * m) == s * u + s * (r * m);
    assert (s * (r * m)) * q == (s * m) * (r * q);
  }
}
