/** The direct FIR filter over a wrapping ring of past samples (JSlowFIRFilter). */
module SlowFir {

  import opened Samples

  /** The first k terms of the sum over i of x[n-(N-1)+i] * cof[i], where N is the kernel length. */
  function Terms(cof: seq<real>, x: seq<real>, n: int, k: nat): real
    requires k <= |cof|
  {
    if k == 0 then 0.0
    else Terms(cof, x, n, k - 1) + Product(Sample(x, n - (|cof| - 1) + (k - 1)), cof[k - 1])
  }

  /** What the filter answers to sample n of the stream x. */
  function Fir(cof: seq<real>, x: seq<real>, n: int): real {
    Terms(cof, x, n, |cof|)
  }

  /** The answers to the samples of input, after the samples of past. */
  function Answers(cof: seq<real>, past: seq<real>, input: seq<real>): seq<real> {
    seq(|input|, j requires 0 <= j < |input| => Fir(cof, past + input, |past| + j))
  }

  /** Position of the i-th oldest sample in the ring. */
  function Wrap(ptr: int, i: int, n: int): int {
    if ptr + i < n then ptr + i else ptr + i - n
  }

  /** The ring holds the last |ring| samples of x, oldest at ptr. */
  ghost predicate Holds(ring: seq<real>, ptr: int, x: seq<real>) {
    && 0 <= ptr < |ring|
    && forall i :: 0 <= i < |ring| ==> ring[Wrap(ptr, i, |ring|)] == Sample(x, |x| - |ring| + i)
  }

  class JSlowFIRFilter {
    var Cof: seq<real>
    var Buf: array<real>
    var BufPtr: int
    ghost var past: seq<real>  // the samples since the last reset

    ghost predicate Valid()
      reads this, Buf
    {
      Buf.Length == |Cof| && (|Cof| > 0 ==> Holds(Buf[..], BufPtr, past))
    }

    constructor ()
      ensures Valid() && fresh(Buf) && Cof == [1.0] && past == []
    {
      Cof := [1.0];
      Buf := new real[1](_ => 0.0);
      BufPtr := 0;
      past := [];
    }

    method Reset()
      modifies this
      ensures Valid() && fresh(Buf) && Cof == old(Cof) && past == []
    {
      Buf := new real[|Cof|](_ => 0.0);
      BufPtr := 0;
      past := [];
    }

    method SetKernel(impulseResponse: seq<real>)
      modifies this
      ensures Valid() && fresh(Buf) && Cof == impulseResponse && past == []
    {
      Cof := impulseResponse;
      Reset();
    }

    /** Each sample of data is replaced by the filter's answer to it. */
    method Update(data: array<real>)
      requires Valid() && |Cof| > 0 && data != Buf
      modifies data, Buf, this`BufPtr, this`past
      ensures Valid() && Cof == old(Cof) && Buf == old(Buf)
      ensures past == old(past) + old(data[..])
      ensures data[..] == Answers(Cof, old(past), old(data[..]))
    {
      hide Product, Fir, Terms, Answers, Holds;
      ghost var input, before := data[..], past;
      ghost var answers := Answers(Cof, before, input);
      AnswerCount(Cof, before, input);
      var COfsz, Bufsz := |Cof|, Buf.Length;
      for j := 0 to data.Length
        invariant Valid() && past == before + input[..j]
        invariant data[..j] == answers[..j] && data[j..] == input[j..]
      {
        ghost var ring := Buf[..];
        RingPush(ring, BufPtr, past, data[j]);
        Buf[BufPtr] := data[j];
        BufPtr := BufPtr + 1;
        if BufPtr == Bufsz {
          BufPtr := 0;
        }
        past := past + [data[j]];
        ghost var x, start, held := past, BufPtr, Buf[..];
        assert x == before + input[..j + 1];
        data[j] := 0.0;
        NoTerms(Cof, x, |x| - 1);
        for i := 0 to COfsz
          invariant BufPtr == (if i == Bufsz then start else Wrap(start, i, Bufsz))
          invariant Buf[..] == held && past == x
          invariant data[j] == Terms(Cof, x, |x| - 1, i)
          invariant data[..j] == answers[..j] && data[j + 1..] == input[j + 1..]
        {
          RingRead(held, start, x, i);
          OneMoreTerm(Cof, x, |x| - 1, i);
          data[j] := data[j] + Product(Buf[BufPtr], Cof[i]);
          BufPtr := BufPtr + 1;
          if BufPtr == Bufsz {
            BufPtr := 0;
          }
        }
        AnswerIsCausal(Cof, before, input, j);
        assert data[..j + 1] == data[..j] + [data[j]];
      }
      assert input[..data.Length] == input;
    }
  }

  lemma AnswerCount(cof: seq<real>, past: seq<real>, input: seq<real>)
    ensures |Answers(cof, past, input)| == |input|
  {
  }

  lemma NoTerms(cof: seq<real>, x: seq<real>, n: int)
    ensures Terms(cof, x, n, 0) == 0.0
  {
  }

  lemma OneMoreTerm(cof: seq<real>, x: seq<real>, n: int, k: nat)
    requires k < |cof|
    ensures Terms(cof, x, n, k + 1) == Terms(cof, x, n, k) + Product(Sample(x, n - (|cof| - 1) + k), cof[k])
  {
  }

  lemma RingRead(ring: seq<real>, ptr: int, x: seq<real>, i: nat)
    requires Holds(ring, ptr, x) && i < |ring|
    ensures 0 <= Wrap(ptr, i, |ring|) < |ring| && ring[Wrap(ptr, i, |ring|)] == Sample(x, |x| - 1 - (|ring| - 1) + i)
    ensures 0 <= ptr < |ring|
  {
  }

  /** Overwriting the oldest sample and stepping on keeps the ring in order. */
  lemma RingPush(ring: seq<real>, ptr: int, x: seq<real>, v: real)
    requires Holds(ring, ptr, x)
    ensures 0 <= ptr < |ring|
    ensures Holds(ring[ptr := v], if ptr + 1 == |ring| then 0 else ptr + 1, x + [v])
  {
    var n, next := |ring|, if ptr + 1 == |ring| then 0 else ptr + 1;
    forall i | 0 <= i < n ensures ring[ptr := v][Wrap(next, i, n)] == Sample(x + [v], |x| + 1 - n + i) {
      if i < n - 1 {
        assert Wrap(next, i, n) == Wrap(ptr, i + 1, n) != ptr;
        assert ring[Wrap(ptr, i + 1, n)] == Sample(x, |x| - n + (i + 1));
      }
    }
  }

  /** Later samples do not change an answer. */
  lemma {:induction false} TermsOfPrefix(cof: seq<real>, x: seq<real>, y: seq<real>, n: int, k: nat)
    requires k <= |cof| && n < |x|
    ensures Terms(cof, x + y, n, k) == Terms(cof, x, n, k)
  {
    hide Product;
    if k > 0 {
      TermsOfPrefix(cof, x, y, n, k - 1);
      assert Sample(x + y, n - (|cof| - 1) + (k - 1)) == Sample(x, n - (|cof| - 1) + (k - 1));
    }
  }

  lemma AnswerIsCausal(cof: seq<real>, past: seq<real>, input: seq<real>, j: nat)
    requires j < |input|
    ensures j < |Answers(cof, past, input)|
    ensures Answers(cof, past, input)[j] == Terms(cof, past + input[..j + 1], |past| + j, |cof|)
  {
    TermsOfPrefix(cof, past + input[..j + 1], input[j + 1..], |past| + j, |cof|);
    assert past + input[..j + 1] + input[j + 1..] == past + input;
  }

  /** The answers do not depend on how the stream is cut into calls. */
  lemma CutAnywhere(cof: seq<real>, past: seq<real>, a: seq<real>, b: seq<real>)
    ensures Answers(cof, past, a + b) == Answers(cof, past, a) + Answers(cof, past + a, b)
  {
    hide Terms;
    var whole, cut := Answers(cof, past, a + b), Answers(cof, past, a) + Answers(cof, past + a, b);
    assert past + a + b == past + (a + b);
    forall j | 0 <= j < |a + b| ensures whole[j] == cut[j] {
      if j < |a| {
        TermsOfPrefix(cof, past + a, b, |past| + j, |cof|);
        assert Answers(cof, past, a)[j] == Fir(cof, past + a, |past| + j);
      } else {
        assert cut[j] == Answers(cof, past + a, b)[j - |a|] == Fir(cof, past + a + b, |past + a| + (j - |a|));
      }
    }
  }
}
