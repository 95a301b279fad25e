/** Python's `sum` and `list.count`, on exact reals. */
module Sums {

  /** `sum(s)`: a left fold, so the last element is added last. */
  function Sum(s: seq<real>): real
  {
    if s == [] then 0.0 else Sum(s[..|s| - 1]) + s[|s| - 1]
  }

  /** `s.count(x)`. */
  function Count<T(==)>(s: seq<T>, x: T): nat
  {
    if s == [] then 0 else Count(s[..|s| - 1], x) + (if s[|s| - 1] == x then 1 else 0)
  }

  lemma SumAppend(s: seq<real>, x: real)
    ensures Sum(s + [x]) == Sum(s) + x
  {
    assert (s + [x])[..|s|] == s;
  }

  lemma CountAppend<T>(s: seq<T>, y: T, x: T)
    ensures Count(s + [y], x) == Count(s, x) + (if y == x then 1 else 0)
  {
    assert (s + [y])[..|s|] == s;
  }

  /** A sum of n terms that all lie in [lo, hi] lies in [n * lo, n * hi]. */
  lemma {:induction false} SumBounds(s: seq<real>, lo: real, hi: real)
    requires forall i :: 0 <= i < |s| ==> lo <= s[i] <= hi
    ensures |s| as real * lo <= Sum(s) <= |s| as real * hi
  {
    if s != [] {
      SumBounds(s[..|s| - 1], lo, hi);
    }
  }

  /** An element is counted at most once per position. */
  lemma {:induction false} CountBounded<T>(s: seq<T>, x: T)
    ensures Count(s, x) <= |s|
  {
    if s != [] {
      CountBounded(s[..|s| - 1], x);
    }
  }

  /** The sum of n copies of x is n * x. */
  lemma {:induction false} SumConstant(s: seq<real>, x: real)
    requires forall i :: 0 <= i < |s| ==> s[i] == x
    ensures Sum(s) == |s| as real * x
  {
    if s != [] {
      SumConstant(s[..|s| - 1], x);
    }
  }

  /** Counting x in n copies of y gives n when x == y and 0 otherwise. */
  lemma {:induction false} CountConstant<T>(s: seq<T>, y: T, x: T)
    requires forall i :: 0 <= i < |s| ==> s[i] == y
    ensures Count(s, x) == if x == y then |s| else 0
  {
    if s != [] {
      CountConstant(s[..|s| - 1], y, x);
    }
  }

  /** Each term divided by d. */
  function Divided(s: seq<real>, d: real): seq<real>
    requires d != 0.0
  {
    seq(|s|, k requires 0 <= k < |s| => s[k] / d)
  }

  /** Dividing every term by d divides the sum by d. */
  lemma {:induction false} SumDivided(s: seq<real>, d: real)
    requires d != 0.0
    ensures Sum(Divided(s, d)) == Sum(s) / d
  {
    if s != [] {
      var init := s[..|s| - 1];
      SumDivided(init, d);
      assert Divided(s, d)[..|s| - 1] == Divided(init, d);
    }
  }

  /** A quotient x / n of an x in [n * lo, n * hi] lies in [lo, hi]. */
  lemma QuotientBounds(x: real, n: real, lo: real, hi: real)
    requires n > 0.0 && n * lo <= x <= n * hi
    ensures lo <= x / n <= hi
  {
    var q := x / n;
    assert q * n == x;
  }
}
