/** Streams of real samples and sums over them. */
module Samples {

  function Product(a: real, b: real): real {
    a * b
  }

  /** Sample i of a stream, zero before its start and after its end. */
  function Sample(x: seq<real>, i: int): real {
    if 0 <= i < |x| then x[i] else 0.0
  }

  ghost function RealSum(n: nat, g: int -> real): real {
    if n == 0 then 0.0 else RealSum(n - 1, g) + g(n - 1)
  }

  lemma {:induction false} RealSumExt(n: nat, g: int -> real, h: int -> real)
    requires forall i :: 0 <= i < n ==> g(i) == h(i)
    ensures RealSum(n, g) == RealSum(n, h)
  {
    if n > 0 {
      RealSumExt(n - 1, g, h);
    }
  }

  lemma {:induction false} RealSumSplit(a: nat, b: nat, g: int -> real)
    ensures RealSum(a + b, g) == RealSum(a, g) + RealSum(b, i => g(a + i))
  {
    if b > 0 {
      RealSumSplit(a, b - 1, g);
    }
  }

  lemma {:induction false} RealSumZero(n: nat, g: int -> real)
    requires forall i :: 0 <= i < n ==> g(i) == 0.0
    ensures RealSum(n, g) == 0.0
  {
    if n > 0 {
      RealSumZero(n - 1, g);
    }
  }

  lemma {:induction false} RealSumReverse(n: nat, g: int -> real)
    ensures RealSum(n, i => g(n - 1 - i)) == RealSum(n, g)
  {
    if n > 0 {
      var h := i => g(n - 1 - i);
      RealSumSplit(1, n - 1, h);
      assert RealSum(1, h) == RealSum(0, h) + h(0) == g(n - 1);
      RealSumReverse(n - 1, g);
      RealSumExt(n - 1, i => h(1 + i), i => g(n - 1 - 1 - i));
    }
  }
}
