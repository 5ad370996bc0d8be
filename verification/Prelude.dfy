/** Small value types and counting facts shared by the whole project. */
module Prelude {

  datatype Option<+T> = None | Some(value: T)

  datatype Result<+T, +E> = Ok(value: T) | Err(error: E)

  function Max(a: int, b: int): int { if a >= b then a else b }

  function Min(a: int, b: int): int { if a <= b then a else b }

  function Sum(s: seq<int>): int {
    if s == [] then 0 else s[|s| - 1] + Sum(s[..|s| - 1])
  }

  // A sum falls when every entry falls.
  lemma {:induction false} SumMonotone(s: seq<int>, t: seq<int>)
    requires |s| == |t|
    requires forall i :: 0 <= i < |s| ==> t[i] <= s[i]
    ensures Sum(t) <= Sum(s)
  {
    if s != [] {
      SumMonotone(s[..|s| - 1], t[..|s| - 1]);
    }
  }

  lemma {:induction false} SumNonNegative(s: seq<int>)
    requires forall i :: 0 <= i < |s| ==> 0 <= s[i]
    ensures 0 <= Sum(s)
  {
    if s != [] {
      SumNonNegative(s[..|s| - 1]);
    }
  }

  lemma {:induction false} SumZeroTail(s: seq<int>, n: nat)
    requires n <= |s| && forall i :: n <= i < |s| ==> s[i] == 0
    ensures Sum(s) == Sum(s[..n])
  {
    if |s| == n {
      assert s[..n] == s;
    } else {
      SumZeroTail(s[..|s| - 1], n);
      assert s[..|s| - 1][..n] == s[..n];
    }
  }

  // The different elements, each at its first position.
  function Distinct<T(==)>(s: seq<T>): seq<T> {
    if s == [] then []
    else
      var front := Distinct(s[..|s| - 1]);
      if s[|s| - 1] in front then front else front + [s[|s| - 1]]
  }

  ghost predicate AllDifferent<T>(s: seq<T>) {
    forall i, j :: 0 <= i < j < |s| ==> s[i] != s[j]
  }

  lemma {:induction false} DistinctIsExact<T>(s: seq<T>)
    ensures AllDifferent(Distinct(s)) && |Distinct(s)| <= |s|
    ensures forall x :: x in Distinct(s) <==> x in s
  {
    if s != [] {
      var front := s[..|s| - 1];
      DistinctIsExact(front);
      assert s == front + [s[|s| - 1]];
    }
  }

  lemma {:induction false} DistinctOfDifferent<T>(s: seq<T>)
    requires AllDifferent(s)
    ensures Distinct(s) == s
  {
    if s != [] {
      var front := s[..|s| - 1];
      DistinctOfDifferent(front);
      assert s == front + [s[|s| - 1]];
    }
  }

  method RemoveDuplicates<T(==)>(s: seq<T>) returns (unique: seq<T>)
    ensures unique == Distinct(s)
  {
    unique := [];
    for i := 0 to |s|
      invariant unique == Distinct(s[..i])
    {
      assert s[..i + 1][..i] == s[..i];
      if s[i] !in unique {
        unique := unique + [s[i]];
      }
    }
    assert s[..|s|] == s;
  }
}
