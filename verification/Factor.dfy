/** Splitting a transform length into radices, and finding a length that splits well. */
module Factor {
  import opened Arith
  import opened MixedRadix

  const MAXFACTORS := 32

  ghost predicate IsPrime(p: int) {
    p >= 2 && forall d :: 2 <= d < p ==> p % d != 0
  }

  /** n has no divisor from 2 up to, not including, p. */
  ghost predicate NoDivisorBelow(n: int, p: int) {
    forall d :: 2 <= d < p ==> n % d != 0
  }

  /** The least divisor of n that is at least d. */
  ghost function LeastFrom(n: int, d: int): (p: int)
    requires 2 <= d <= n
    ensures d <= p <= n && n % p == 0 && forall e :: d <= e < p ==> n % e != 0
    decreases n - d
  {
    if d == n || n % d == 0 then d else LeastFrom(n, d + 1)
  }

  /** The radix to split off: 4 while it divides, then the least prime factor. */
  ghost function Radix(n: int): (p: int)
    requires n >= 1
    ensures 1 <= p <= n && n % p == 0 && (n > 1 ==> p > 1)
  {
    if n % 4 == 0 then 4 else if n == 1 then 1 else LeastFrom(n, 2)
  }

  /** p1, m1, p2, m2, ... down to remaining length 1. */
  ghost function FactorPairs(n: int): (s: seq<int>)
    requires n >= 1
    decreases n
  {
    var p := Radix(n);
    QuotientShrinks(n, p);
    if n / p == 1 then [p, 1] else [p, n / p] + FactorPairs(n / p)
  }

  lemma QuotientShrinks(n: int, p: int)
    requires n >= 1 && 1 <= p <= n && n % p == 0 && (n > 1 ==> p > 1)
    ensures n == p * (n / p) && 1 <= n / p && (n > 1 ==> 2 * (n / p) <= n)
    ensures n == 1 ==> n / p == 1
  {
    assert n == (n / p) * p;
    if n > 1 {
      FactorsPositive(n / p, p);
      MulMono(2, p, n / p);
    }
  }

  lemma DividesTransitive(d: int, e: int, n: int)
    requires d > 0 && e > 0 && n % e == 0 && e % d == 0
    ensures n % d == 0
  {
    assert n == ((n / e) * (e / d)) * d + 0 by {
      assert n == (n / e) * e && e == (e / d) * d;
    }
    DivModUnique(n, d, (n / e) * (e / d), 0);
  }

  /** Each radix is 4 or a prime; 1 only for n = 1. */
  lemma RadixIsFourOrPrime(n: int)
    requires n >= 1
    ensures Radix(n) == 4 || IsPrime(Radix(n)) || (n == 1 && Radix(n) == 1)
  {
    if n % 4 != 0 && n > 1 {
      var p := Radix(n);
      forall d | 2 <= d < p ensures p % d != 0 {
        if p % d == 0 {
          DividesTransitive(d, p, n);
        }
      }
    }
  }

  lemma {:induction false} RadicesFourOrPrime(n: int, i: nat)
    requires n >= 1 && 2 * i + 1 < |FactorPairs(n)|
    ensures var p := FactorPairs(n)[2 * i]; p == 4 || IsPrime(p) || (n == 1 && p == 1)
    decreases n
  {
    RadixIsFourOrPrime(n);
    QuotientShrinks(n, Radix(n));
    if i > 0 {
      RadicesFourOrPrime(n / Radix(n), i - 1);
    }
  }

  /** The pairs chain: p[i] * m[i] = m[i-1], m[-1] = n, and the last m is 1. */
  lemma {:induction false} PairsChain(n: int, list: seq<int>, i: nat)
    requires n >= 1 && i <= |list| && FactorPairs(n) <= list[i..]
    ensures FactorsFit(list, i, n)
    decreases n
  {
    var p := Radix(n);
    QuotientShrinks(n, p);
    var m := n / p;
    assert list[i] == list[i..][0] == p && list[i + 1] == list[i..][1] == m;
    if m != 1 {
      assert list[i + 2..] == list[i..][2..];
      assert FactorPairs(m) == FactorPairs(n)[2..];
      PairsChain(m, list, i + 2);
    }
  }

  ghost function Pow2(k: nat): nat {
    if k == 0 then 1 else 2 * Pow2(k - 1)
  }

  lemma {:induction false} Pow2Mono(a: nat, b: nat)
    requires a <= b
    ensures Pow2(a) <= Pow2(b)
  {
    if a < b {
      Pow2Mono(a, b - 1);
    }
  }

  /** k pairs need n >= 2^k, so below 2^31 at most 30 pairs are written. */
  lemma {:induction false} PairCount(n: int)
    requires n >= 1
    ensures |FactorPairs(n)| % 2 == 0 && |FactorPairs(n)| >= 2
    ensures n > 1 ==> Pow2(|FactorPairs(n)| / 2) <= n
    decreases n
  {
    QuotientShrinks(n, Radix(n));
    var m := n / Radix(n);
    if m > 1 {
      PairCount(m);
    }
  }

  lemma BufferSuffices(n: int)
    requires 1 <= n < 0x8000_0000
    ensures |FactorPairs(n)| <= 60 < 2 * MAXFACTORS
  {
    PairCount(n);
    if |FactorPairs(n)| / 2 > 30 {
      Pow2Of31();
      Pow2Mono(31, |FactorPairs(n)| / 2);
    }
  }

  lemma Pow2Of31()
    ensures Pow2(31) == 0x8000_0000
  {
    assert Pow2(8) == 0x100;
    assert Pow2(16) == 0x1_0000;
    assert Pow2(24) == 0x100_0000;
  }

  /** The integer square root, which floor(sqrt(n)) is in exact arithmetic. */
  ghost predicate IsFloorSqrt(r: int, n: int) {
    r >= 0 && r * r <= n < (r + 1) * (r + 1)
  }

  /** Where the search for the next radix may stand: no smaller radix is possible. */
  ghost predicate Searching(n: int, p: int) {
    && n >= 1
    && (p == 4 || (n % 4 != 0 && 2 <= p <= n && (p == 2 || p % 2 == 1) && NoDivisorBelow(n, p)))
  }

  /** p is the radix, or the next candidate keeps the search sound. */
  ghost function Next(p: int): int {
    match p
    case 4 => 2
    case 2 => 3
    case _ => p + 2
  }

  /** How far the search for one radix can still go. */
  ghost function Rank(n: nat, p: int): nat {
    if p == 4 then n + 1 else if p <= n then n - p else 0
  }

  lemma EvenDivides(d: int, n: int)
    requires d >= 2 && n >= 1 && d % 2 == 0 && n % d == 0
    ensures n % 2 == 0
  {
    DivModUnique(d, 2, d / 2, 0);
    DividesTransitive(2, d, n);
  }

  lemma SearchSteps(n: int, p: int)
    requires Searching(n, p) && n % p != 0
    ensures if n > 1 then Searching(n, Next(p)) else p == 4
    ensures Next(p) >= 2 && n % 4 != 0 && NoDivisorBelow(n, Next(p))
    ensures Rank(n, Next(p)) < Rank(n, p) && Rank(n, n) < Rank(n, p)
  {
    if p != 4 {
      forall d | 2 <= d < Next(p) ensures n % d != 0 {
        if d == p + 1 && n % d == 0 { EvenDivides(d, n); }
      }
    }
    if n > 1 && Next(p) > n {
      DivModUnique(n, n, 1, 0);
    }
  }

  lemma Cofactor(n: int, d: int)
    requires 2 <= d < n && n % d == 0
    ensures n == d * (n / d) && 2 <= n / d && n % (n / d) == 0
  {
    var e := n / d;
    assert n == e * d;
    FactorsPositive(e, d);
    DivModUnique(n, e, d, 0);
  }

  lemma SquareBelowProduct(p: nat, d: nat, e: nat)
    requires p <= d && p <= e
    ensures p * p <= d * e
  {
    MulMono(p, d, p);
    MulMono(p, e, d);
  }

  /** A candidate whose square exceeds n leaves n prime, or 1. */
  lemma NoMoreFactors(n: int, p: int)
    requires n >= 1 && n % 4 != 0 && p >= 2 && NoDivisorBelow(n, p) && p * p > n
    ensures Radix(n) == n
  {
    var d := Radix(n);
    if d < n {
      Cofactor(n, d);
      SquareBelowProduct(p, d, n / d);
    }
  }

  lemma SearchResumes(n: int, p: int)
    requires n >= 1 && p >= 2 && n % p == 0 && n / p > 1 && Searching(n, p)
    ensures Searching(n / p, p)
  {
    var m := n / p;
    QuotientDivides(n, p);
    if p != 4 {
      forall d | 2 <= d && m % d == 0 ensures n % d == 0 {
        DividesTransitive(d, m, n);
      }
      if p > m {
        DivModUnique(m, m, 1, 0);
      }
    }
  }

  lemma QuotientDivides(n: int, p: int)
    requires n >= 1 && p >= 1 && n % p == 0
    ensures n / p >= 1 && n % (n / p) == 0
  {
    assert n == (n / p) * p;
    FactorsPositive(n / p, p);
    DivModUnique(n, n / p, p, 0);
  }

  lemma FloorSqrtOfOne(r: int, n: int)
    requires IsFloorSqrt(r, n)
    ensures n == 1 ==> r < 2
  {
    if r >= 2 {
      MulMono(2, r, r);
    }
  }

  lemma SearchStarts(n: int)
    requires n >= 1
    ensures Searching(n, 4)
  {
  }

  lemma SplitOff(n: int, p: int)
    requires n >= 1 && p >= 1 && Radix(n) == p
    ensures n == p * (n / p) && 1 <= n / p <= n && (n > 1 ==> n / p < n)
    ensures FactorPairs(n) == [p, n / p] + if n / p > 1 then FactorPairs(n / p) else []
  {
    QuotientShrinks(n, p);
  }

  /** The inner loop of kf_factor: try 4, 2, 3, then the odd numbers, then give up on the rest. */
  method NextRadix(n: int, p0: int, n0: int, floorSqrt: int) returns (p: int)
    requires 1 <= n <= n0 && (n == 1 ==> n0 == 1) && p0 >= 2 && Searching(n, p0) && IsFloorSqrt(floorSqrt, n0)
    ensures p >= 1 && Radix(n) == p && (n / p > 1 ==> Searching(n, p))
  {
    hide Radix, LeastFrom, NoDivisorBelow, Searching, Rank;
    p := p0;
    while n % p != 0
      invariant p >= 1 && (Searching(n, p) || (p == n && Radix(n) == n))
      decreases Rank(n, p)
    {
      SearchSteps(n, p);
      match p {
        case 4 => p := 2;
        case 2 => p := 3;
        case _ => p := p + 2;
      }
      FloorSqrtOfOne(floorSqrt, n0);
      if p > floorSqrt {
        SquareBelowProduct(floorSqrt + 1, p, p);
        NoMoreFactors(n, p);
        p := n;
      }
    }
    SearchEndsAt(n, p);
  }

  /** kf_factor: the cut-off is the square root of the length asked for. */
  method KfFactor(n0: int, facbuf: array<int>, floorSqrt: int)
    requires 1 <= n0 < 0x8000_0000 && facbuf.Length == 2 * MAXFACTORS
    requires IsFloorSqrt(floorSqrt, n0)
    modifies facbuf
    ensures |FactorPairs(n0)| <= 60 && facbuf[..|FactorPairs(n0)|] == FactorPairs(n0)
    ensures forall i :: |FactorPairs(n0)| <= i < facbuf.Length ==> facbuf[i] == old(facbuf[i])
    ensures FactorsFit(facbuf[..], 0, n0)
  {
    hide FactorPairs, Radix, LeastFrom, NoDivisorBelow, Searching, Rank;
    BufferSuffices(n0);
    SearchStarts(n0);
    var n, p, w, more := n0, 4, 0, true;
    while more
      invariant 1 <= n <= n0 && 0 <= w <= |FactorPairs(n0)|
      invariant n == 1 ==> n0 == 1 || !more
      invariant more ==> facbuf[..w] + FactorPairs(n) == FactorPairs(n0) && Searching(n, p) && p >= 2
      invariant !more ==> facbuf[..w] == FactorPairs(n0)
      invariant forall i :: w <= i < facbuf.Length ==> facbuf[i] == old(facbuf[i])
      decreases more, n
    {
      p := NextRadix(n, p, n0, floorSqrt);
      SplitOff(n, p);
      if n / p > 1 {
        SearchResumes(n, p);
      }
      ghost var before, tail := facbuf[..w], if n / p > 1 then FactorPairs(n / p) else [];
      assert before + ([p, n / p] + tail) == before + [p, n / p] + tail;
      n := n / p;
      facbuf[w] := p;
      facbuf[w + 1] := n;
      w := w + 2;
      assert facbuf[..w] == before + [p, n];
      more := n > 1;
    }
    assert facbuf[..][0..] == facbuf[..];
    PairsChain(n0, facbuf[..], 0);
  }

  lemma SearchEndsAt(n: int, p: int)
    requires p >= 1 && n % p == 0 && (Searching(n, p) || (p == n && Radix(n) == n))
    ensures Radix(n) == p
    ensures n / p > 1 ==> Searching(n, p)
  {
    if p == n {
      DivModUnique(n, n, 1, 0);
    }
  }

  /** What a 32-bit two's complement product reads as. */
  function Wrap32(x: int): int {
    (x + 0x8000_0000) % 0x1_0000_0000 - 0x8000_0000
  }

  lemma WrapIsNotAbove(x: int)
    requires x >= 0
    ensures Wrap32(x) <= x
    ensures x < 0x8000_0000 ==> Wrap32(x) == x
  {
  }

  /** Even when the square overflows, cutting off only ever leaves a prime, or 1. */
  lemma CutOffIsSound(n: int, p: int)
    requires n >= 1 && n % 4 != 0 && p >= 2 && NoDivisorBelow(n, p)
    ensures Wrap32(p * p) > n ==> Radix(n) == n
    ensures n == 1 && p == 2 ==> Wrap32(p * p) > n
  {
    MulSign(p, p);
    WrapIsNotAbove(p * p);
    if p * p > n {
      NoMoreFactors(n, p);
    }
  }

  ghost function Interleave(a: seq<int>, b: seq<int>): seq<int>
    requires |a| == |b|
  {
    if a == [] then [] else Interleave(a[..|a| - 1], b[..|b| - 1]) + [a[|a| - 1], b[|b| - 1]]
  }

  lemma InterleaveNothing()
    ensures Interleave([], []) == []
  {
  }

  lemma InterleavePush(a: seq<int>, b: seq<int>, x: int, y: int)
    requires |a| == |b|
    ensures Interleave(a + [x], b + [y]) == Interleave(a, b) + [x, y]
  {
    assert (a + [x])[..|a|] == a && (b + [y])[..|b|] == b;
  }

  /** Its inner loop: on to the next radix. */
  method NextStage(n: int, p0: int) returns (p: int)
    requires 1 <= n < 0x8000_0000 && Searching(n, p0) && p0 >= 2
    ensures p >= 1 && n % p == 0 && p == Radix(n) && (n / p > 1 ==> Searching(n, p))
  {
    hide FactorPairs, Radix, LeastFrom, NoDivisorBelow, Searching, Rank, Wrap32;
    p := p0;
    while n % p != 0
      invariant p >= 1 && (Searching(n, p) || (p == n && Radix(n) == n))
      decreases Rank(n, p)
    {
      SearchSteps(n, p);
      match p {
        case 4 => p := 2;
        case 2 => p := 3;
        case _ => p := p + 2;
      }
      CutOffIsSound(n, p);
      if Wrap32(p * p) > n {
        p := n;
      }
    }
    SearchEndsAt(n, p);
  }

  /** kissfft.hh's factoriser: the cut-off is the square root of what is left, in 32-bit arithmetic. */
  method Prepare(nfft: int) returns (stageRadix: seq<int>, stageRemainder: seq<int>)
    requires 1 <= nfft < 0x8000_0000
    ensures |stageRadix| == |stageRemainder| && Interleave(stageRadix, stageRemainder) == FactorPairs(nfft)
  {
    hide FactorPairs, Radix, LeastFrom, NoDivisorBelow, Searching, Rank, Wrap32, Interleave;
    InterleaveNothing();
    SearchStarts(nfft);
    stageRadix, stageRemainder := [], [];
    var n, p, more := nfft, 4, true;
    while more
      invariant 1 <= n <= nfft && |stageRadix| == |stageRemainder|
      invariant more ==> Interleave(stageRadix, stageRemainder) + FactorPairs(n) == FactorPairs(nfft)
      invariant more ==> Searching(n, p) && p >= 2
      invariant !more ==> Interleave(stageRadix, stageRemainder) == FactorPairs(nfft)
      decreases more, n
    {
      p := NextStage(n, p);
      SplitOff(n, p);
      if n / p > 1 {
        SearchResumes(n, p);
      }
      InterleavePush(stageRadix, stageRemainder, p, n / p);
      ghost var before, tail := Interleave(stageRadix, stageRemainder), if n / p > 1 then FactorPairs(n / p) else [];
      assert before + ([p, n / p] + tail) == before + [p, n / p] + tail;
      n := n / p;
      stageRadix := stageRadix + [p];
      stageRemainder := stageRemainder + [n];
      more := n > 1;
    }
  }
}

/** The nearest length that splits into radices 2, 3 and 5 only. */
module FastSize {
  import opened Arith
  import opened Factor

  /** No prime factor other than 2, 3 and 5. */
  ghost predicate IsFast(k: int) {
    k >= 1 && forall q :: IsPrime(q) && k % q == 0 ==> q == 2 || q == 3 || q == 5
  }

  lemma ResidueProduct(f: int, r: int, t: int)
    requires f == 2 || f == 3 || f == 5
    requires 0 < r < f && 0 <= t < f && (r * t) % f == 0
    ensures t == 0
  {
    if f == 5 {
      assert r == 1 || r == 2 || r == 3 || r == 4;
      assert t == 0 || t == 1 || t == 2 || t == 3 || t == 4;
    }
  }

  /** Euclid's lemma for the three small primes. */
  lemma OtherPrimeDivides(f: int, x: int, q: int)
    requires f == 2 || f == 3 || f == 5
    requires IsPrime(q) && q != 2 && q != 3 && q != 5 && (f * x) % q == 0
    ensures x % q == 0
  {
    assert q % 2 != 0 || q == 2;
    assert q != 4 by {
      assert 4 % 2 == 0;
    }
    assert f < q && q % f != 0;
    var y := (f * x) / q;
    assert f * x == y * q;
    var r, t := q % f, y % f;
    ProductResidue(q, y, f);
    DivModUnique(f * x, f, x, 0);
    ResidueProduct(f, r, t);
    assert f * x == f * ((y / f) * q);
    DivModUnique(x, q, y / f, 0);
  }

  lemma ProductResidue(q: int, y: int, f: int)
    requires f > 0
    ensures (y * q) % f == ((q % f) * (y % f)) % f
  {
    var a, r, b, t := q / f, q % f, y / f, y % f;
    assert q == a * f + r && y == b * f + t;
    assert y * q == r * t + (b * q + t * a) * f by {
      assert y * q == (b * f) * q + t * q;
      assert t * q == t * (a * f) + t * r;
    }
    ModPeriod(r * t, b * q + t * a, f);
  }

  lemma StripFactor(m: int, f: int)
    requires m >= 1 && (f == 2 || f == 3 || f == 5) && m % f == 0
    ensures 1 <= m / f < m
    ensures IsFast(m / f) <==> IsFast(m)
  {
    var x := m / f;
    assert m == f * x;
    forall q | IsPrime(q) && q != 2 && q != 3 && q != 5 ensures x % q == 0 <==> m % q == 0 {
      if m % q == 0 {
        OtherPrimeDivides(f, x, q);
      }
      if x % q == 0 {
        assert m == (f * (x / q)) * q by {
          assert x == (x / q) * q;
        }
        DivModUnique(m, q, f * (x / q), 0);
      }
    }
  }

  /** What is left after stripping is 1 exactly when there was nothing else in it. */
  lemma Stripped(m: int)
    requires m >= 1 && m % 2 != 0 && m % 3 != 0 && m % 5 != 0
    ensures IsFast(m) <==> m == 1
  {
    if m > 1 {
      var q := LeastFrom(m, 2);
      forall d | 2 <= d < q ensures q % d != 0 {
        if q % d == 0 {
          DividesTransitive(d, q, m);
        }
      }
      assert IsPrime(q) && m % q == 0;
    } else {
      forall q | IsPrime(q) ensures 1 % q != 0 {
        DivModUnique(1, q, 0, 1);
      }
    }
  }

  /** There is a fast length at or above every n, so the search ends. */
  lemma {:induction false} PowersAreFast(k: nat)
    ensures IsFast(Pow2(k)) && Pow2(k) >= k + 1
  {
    if k == 0 {
      Stripped(1);
    } else {
      PowersAreFast(k - 1);
      DivModUnique(Pow2(k), 2, Pow2(k - 1), 0);
      StripFactor(Pow2(k), 2);
    }
  }

  /** 2^5 * 3^12 * 5^3: up to here the search stays in 32 bits. */
  const LARGEST := 2125764000

  lemma LargestIsFast()
    ensures IsFast(LARGEST)
  {
    hide IsFast;
    ThreesFast(12);
    assert 2125764000 == 32 * 125 * 531441;
    TimesFast(531441, 5);
    TimesFast(2657205, 5);
    TimesFast(13286025, 5);
    TimesFast(66430125, 2);
    TimesFast(132860250, 2);
    TimesFast(265720500, 2);
    TimesFast(531441000, 2);
    TimesFast(1062882000, 2);
  }

  lemma TimesFast(m: int, f: int)
    requires IsFast(m) && m >= 1 && (f == 2 || f == 3 || f == 5)
    ensures IsFast(f * m)
  {
    hide IsFast;
    DivModUnique(f * m, f, m, 0);
    StripFactor(f * m, f);
  }

  lemma {:induction false} ThreesFast(k: nat)
    ensures Power3(k) >= 1 && IsFast(Power3(k)) && (k == 12 ==> Power3(k) == 531441)
  {
    hide IsFast;
    if k == 0 {
      Stripped(1);
    } else {
      ThreesFast(k - 1);
      TimesFast(Power3(k - 1), 3);
    }
    if k == 12 {
      assert Power3(4) == 81;
      assert Power3(8) == 6561;
      assert Power3(12) == 531441;
    }
  }

  function Power3(k: nat): nat { if k == 0 then 1 else 3 * Power3(k - 1) }

  method KissFftNextFastSize(n0: int) returns (n: int)
    requires n0 >= 1
    ensures n >= n0 && IsFast(n)
    ensures forall k :: n0 <= k < n ==> !IsFast(k)
    ensures n0 <= LARGEST ==> n <= LARGEST
  {
    hide IsFast;
    LargestIsFast();
    n := n0;
    PowersAreFast(n0);
    while true
      invariant n0 <= n <= Pow2(n0)
      invariant forall k :: n0 <= k < n ==> !IsFast(k)
      decreases Pow2(n0) - n
    {
      var m := n;
      while m % 2 == 0
        invariant m >= 1 && (IsFast(m) <==> IsFast(n))
        decreases m
      {
        StripFactor(m, 2);
        m := m / 2;
      }
      while m % 3 == 0
        invariant m >= 1 && m % 2 != 0 && (IsFast(m) <==> IsFast(n))
        decreases m
      {
        StripFactor(m, 3);
        StaysIndivisible(m, 3, 2);
        m := m / 3;
      }
      while m % 5 == 0
        invariant m >= 1 && m % 2 != 0 && m % 3 != 0 && (IsFast(m) <==> IsFast(n))
        decreases m
      {
        StripFactor(m, 5);
        StaysIndivisible(m, 5, 2);
        StaysIndivisible(m, 5, 3);
        m := m / 5;
      }
      Stripped(m);
      if m <= 1 {
        break;
      }
      n := n + 1;
    }
  }

  lemma StaysIndivisible(m: int, f: int, d: int)
    requires m >= 1 && f >= 2 && d >= 2 && m % f == 0 && m % d != 0
    ensures (m / f) % d != 0
  {
    QuotientDivides(m, f);
    if (m / f) % d == 0 {
      DividesTransitive(d, m / f, m);
    }
  }
}
