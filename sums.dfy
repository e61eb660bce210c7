/** Finite sums of a real-valued measure over a sequence, added left to right, the
    way the invoice accumulators are advanced one item at a time. */
module Sums {

  /** f(s[0]) + ... + f(s[|s| - 1]), the last element added last. */
  function Sum<T>(s: seq<T>, f: T -> real): real
  {
    if s == [] then 0.0 else Sum(s[..|s| - 1], f) + f(s[|s| - 1])
  }

  /** Extending the sequence by one element adds that element's measure. */
  lemma SumAppend<T>(s: seq<T>, x: T, f: T -> real)
    ensures Sum(s + [x], f) == Sum(s, f) + f(x)
  {
    assert (s + [x])[..|s|] == s;
  }

  /** A two-element sum, for worked examples. */
  lemma SumPair<T>(a: T, b: T, f: T -> real)
    ensures Sum([a, b], f) == f(a) + f(b)
  {
    SumAppend([a], b, f);
    SumAppend([], a, f);
    assert [] + [a] == [a];
    assert [a] + [b] == [a, b];
  }

  /** Sums of two sequences agree when their measures agree position by position. */
  lemma {:induction false} SumPointwise<T, U>(s: seq<T>, f: T -> real, t: seq<U>, g: U -> real)
    requires |s| == |t|
    requires forall i :: 0 <= i < |s| ==> f(s[i]) == g(t[i])
    ensures Sum(s, f) == Sum(t, g)
  {
    if s != [] {
      SumPointwise(s[..|s| - 1], f, t[..|t| - 1], g);
    }
  }

  /** The sum of a pointwise sum is the sum of the sums. */
  lemma {:induction false} SumAdd<T>(s: seq<T>, f: T -> real, g: T -> real, h: T -> real)
    requires forall i :: 0 <= i < |s| ==> h(s[i]) == f(s[i]) + g(s[i])
    ensures Sum(s, h) == Sum(s, f) + Sum(s, g)
  {
    if s != [] {
      SumAdd(s[..|s| - 1], f, g, h);
    }
  }

  /** A measure that is zero on every element sums to zero. */
  lemma {:induction false} SumZero<T>(s: seq<T>, f: T -> real)
    requires forall i :: 0 <= i < |s| ==> f(s[i]) == 0.0
    ensures Sum(s, f) == 0.0
  {
    if s != [] {
      SumZero(s[..|s| - 1], f);
    }
  }

  /** A measure that is non-negative on every element has a non-negative sum. */
  lemma {:induction false} SumNonNegative<T>(s: seq<T>, f: T -> real)
    requires forall i :: 0 <= i < |s| ==> f(s[i]) >= 0.0
    ensures Sum(s, f) >= 0.0
  {
    if s != [] {
      SumNonNegative(s[..|s| - 1], f);
    }
  }
}
