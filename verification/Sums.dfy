/** Sums of an integer weight over a sequence. */
module Sums {

  ghost function Sum<T>(s: seq<T>, weight: T -> int): int {
    if s == [] then 0 else Sum(s[..|s| - 1], weight) + weight(s[|s| - 1])
  }

  lemma {:induction false} SumUpdate<T>(s: seq<T>, i: nat, x: T, weight: T -> int)
    requires i < |s|
    ensures Sum(s[i := x], weight) == Sum(s, weight) - weight(s[i]) + weight(x)
  {
    var front := s[..|s| - 1];
    if i == |s| - 1 {
      assert s[i := x][..|s| - 1] == front;
    } else {
      SumUpdate(front, i, x, weight);
      assert s[i := x][..|s| - 1] == front[i := x];
    }
  }

  lemma SumAppend<T>(s: seq<T>, x: T, weight: T -> int)
    ensures Sum(s + [x], weight) == Sum(s, weight) + weight(x)
  {
    assert (s + [x])[..|s|] == s;
  }

  /** A sum of weights that are never negative bounds each of them. */
  lemma {:induction false} SumBounds<T(!new)>(s: seq<T>, i: nat, weight: T -> int)
    requires i < |s| && forall x :: weight(x) >= 0
    ensures 0 <= weight(s[i]) <= Sum(s, weight)
  {
    var front := s[..|s| - 1];
    if i < |s| - 1 {
      SumBounds(front, i, weight);
    } else {
      SumNonNegative(front, weight);
    }
  }

  lemma {:induction false} SumNonNegative<T(!new)>(s: seq<T>, weight: T -> int)
    requires forall x :: weight(x) >= 0
    ensures Sum(s, weight) >= 0
  {
    if s != [] {
      SumNonNegative(s[..|s| - 1], weight);
    }
  }

  /** If every element has the same weight, the sum is a product. */
  lemma {:induction false} SumConstant<T>(s: seq<T>, weight: T -> int, c: int)
    requires forall i | 0 <= i < |s| :: weight(s[i]) == c
    ensures Sum(s, weight) == |s| * c
  {
    if s != [] {
      SumConstant(s[..|s| - 1], weight, c);
    }
  }

  /** Two different positions contribute both. */
  lemma {:induction false} SumPair<T(!new)>(s: seq<T>, i: nat, j: nat, weight: T -> int)
    requires i < j < |s| && forall x :: weight(x) >= 0
    ensures weight(s[i]) + weight(s[j]) <= Sum(s, weight)
  {
    var front := s[..|s| - 1];
    if j < |s| - 1 {
      SumPair(front, i, j, weight);
    } else {
      SumBounds(front, i, weight);
    }
  }

  /** A sum that is not zero has a term that is not zero. */
  lemma {:induction false} SumWitness<T>(s: seq<T>, weight: T -> int) returns (i: nat)
    requires Sum(s, weight) != 0
    ensures i < |s| && weight(s[i]) != 0
  {
    i := |s| - 1;
    if weight(s[i]) == 0 {
      i := SumWitness(s[..|s| - 1], weight);
    }
  }

  /** Sums compare as their terms do. */
  lemma {:induction false} SumCompare<T(!new)>(s: seq<T>, weight: T -> int, other: T -> int)
    requires forall x :: weight(x) <= other(x)
    ensures Sum(s, weight) <= Sum(s, other)
  {
    if s != [] {
      SumCompare(s[..|s| - 1], weight, other);
    }
  }
}
