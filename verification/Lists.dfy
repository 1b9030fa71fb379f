// Singly linked lists without repetitions, as sequences.
module Lists {
  ghost predicate Distinct<T>(s: seq<T>) { forall i, j :: 0 <= i < j < |s| ==> s[i] != s[j] }

  // g_slist_remove: drops the first occurrence.
  function Without<T(==)>(s: seq<T>, x: T): seq<T> {
    if s == [] then [] else if s[0] == x then s[1..] else [s[0]] + Without(s[1..], x)
  }

  lemma {:induction false} WithoutContents<T>(s: seq<T>, x: T)
    ensures |Without(s, x)| == if x in s then |s| - 1 else |s|
    ensures forall y :: y in Without(s, x) ==> y in s
    ensures forall y :: y in s && y != x ==> y in Without(s, x)
  {
    if s != [] && s[0] != x { WithoutContents(s[1..], x); }
  }

  lemma {:induction false} WithoutDistinct<T>(s: seq<T>, x: T)
    requires Distinct(s)
    ensures Distinct(Without(s, x)) && x !in Without(s, x)
    ensures |Without(s, x)| == if x in s then |s| - 1 else |s|
    ensures forall y :: y in Without(s, x) <==> y in s && y != x
  {
    WithoutContents(s, x);
    if s != [] && s[0] != x {
      WithoutDistinct(s[1..], x);
      assert s[0] !in s[1..];
    }
  }

  lemma WithoutHas<T>(s: seq<T>, x: T, y: T)
    requires Distinct(s)
    ensures y in Without(s, x) <==> y in s && y != x
  {
    WithoutDistinct(s, x);
  }

  lemma {:induction false} WithoutAbsent<T>(s: seq<T>, x: T)
    requires x !in s
    ensures Without(s, x) == s
  {
    if s != [] { WithoutAbsent(s[1..], x); }
  }

  lemma {:induction false} WithoutLast<T>(s: seq<T>)
    requires |s| > 0 && Distinct(s)
    ensures Without(s, s[|s| - 1]) == s[..|s| - 1]
  {
    if |s| > 1 {
      var last := s[|s| - 1];
      assert s[0] != last && s[1..][|s[1..]| - 1] == last;
      WithoutLast(s[1..]);
      assert Without(s, last) == [s[0]] + s[1..][..|s| - 2];
    }
  }

  lemma DistinctFront<T>(s: seq<T>, x: T)
    requires Distinct(s) && x !in s
    ensures Distinct([x] + s)
  {}

  lemma LastOut<T>(s: seq<T>)
    requires |s| > 0 && Distinct(s)
    ensures var last, rest := s[|s| - 1], Without(s, s[|s| - 1]);
      Distinct(rest) && |rest| == |s| - 1 && last in s && forall y :: y in rest <==> y in s && y != last
  {
    WithoutDistinct(s, s[|s| - 1]);
  }
}
