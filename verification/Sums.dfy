/** Sums of an integer measure over a sequence, and concatenation. */
module Sums {

  function SumBy<T>(f: T -> int, xs: seq<T>): int {
    if xs == [] then 0 else SumBy(f, xs[..|xs| - 1]) + f(xs[|xs| - 1])
  }

  lemma Associates<T>(a: seq<T>, b: seq<T>, c: seq<T>)
    ensures a + b + c == a + (b + c)
  {
  }

  lemma SumAppend<T>(f: T -> int, xs: seq<T>, x: T)
    ensures SumBy(f, xs + [x]) == SumBy(f, xs) + f(x)
  {
  }

  lemma {:induction false} SumConcat<T>(f: T -> int, xs: seq<T>, ys: seq<T>)
    ensures SumBy(f, xs + ys) == SumBy(f, xs) + SumBy(f, ys)
  {
    if ys == [] {
      assert xs + ys == xs;
    } else {
      var n := |ys| - 1;
      assert (xs + ys)[..|xs| + n] == xs + ys[..n];
      SumConcat(f, xs, ys[..n]);
    }
  }

  lemma {:induction false} SumUpdate<T>(f: T -> int, xs: seq<T>, i: nat, x: T)
    requires i < |xs|
    ensures SumBy(f, xs[i := x]) == SumBy(f, xs) - f(xs[i]) + f(x)
  {
    var n := |xs| - 1;
    if i == n {
      assert xs[i := x][..n] == xs[..n];
    } else {
      assert xs[i := x][..n] == xs[..n][i := x];
      SumUpdate(f, xs[..n], i, x);
    }
  }

  /** Pointwise comparison of two measures over two sequences of one length. */
  lemma {:induction false} SumMonotone<T, U>(f: T -> int, xs: seq<T>, g: U -> int, ys: seq<U>)
    requires |xs| == |ys|
    requires forall i | 0 <= i < |xs| :: f(xs[i]) <= g(ys[i])
    ensures SumBy(f, xs) <= SumBy(g, ys)
  {
    if xs != [] {
      SumMonotone(f, xs[..|xs| - 1], g, ys[..|ys| - 1]);
    }
  }

  lemma SumCongruent<T, U>(f: T -> int, xs: seq<T>, g: U -> int, ys: seq<U>)
    requires |xs| == |ys|
    requires forall i | 0 <= i < |xs| :: f(xs[i]) == g(ys[i])
    ensures SumBy(f, xs) == SumBy(g, ys)
  {
    SumMonotone(f, xs, g, ys);
    SumMonotone(g, ys, f, xs);
  }

  lemma {:induction false} SumNonNegative<T>(f: T -> int, xs: seq<T>)
    requires forall i | 0 <= i < |xs| :: 0 <= f(xs[i])
    ensures 0 <= SumBy(f, xs)
  {
    if xs != [] {
      SumNonNegative(f, xs[..|xs| - 1]);
    }
  }

  lemma {:induction false} SumZero<T>(f: T -> int, xs: seq<T>)
    requires forall i | 0 <= i < |xs| :: f(xs[i]) == 0
    ensures SumBy(f, xs) == 0
  {
    if xs != [] {
      SumZero(f, xs[..|xs| - 1]);
    }
  }

  /** A prefix of a non-negative measure sums to no more than the whole. */
  lemma {:induction false} SumPrefix<T>(f: T -> int, xs: seq<T>, i: nat)
    requires i <= |xs| && forall j | 0 <= j < |xs| :: 0 <= f(xs[j])
    ensures SumBy(f, xs[..i]) <= SumBy(f, xs)
  {
    var n := |xs| - 1;
    if i <= n {
      assert xs[..n][..i] == xs[..i];
      SumPrefix(f, xs[..n], i);
    } else {
      assert xs[..i] == xs;
    }
  }
}
