/** Small building blocks shared by every other module: an optional value, the
    absolute value, defaulting map lookups, and a sum of a real-valued function
    over a sequence together with the algebra the aggregation proofs rely on. */
module Basics {

  /** A value that may be missing (a SQL NULL, an absent JSON key). */
  datatype Option<T> = None | Some(value: T) {
    /** The held value, or `default` when there is none. */
    function GetOr(default: T): T {
      match this
      case Some(v) => v
      case None => default
    }
  }

  /** JavaScript's `Math.abs` on money. */
  function Abs(x: real): (r: real)
    ensures r >= 0.0
  {
    if x < 0.0 then -x else x
  }

  /** The magnitude keeps or flips the sign, and keeps a non-negative. */
  lemma AbsCases(x: real)
    ensures Abs(x) == x || Abs(x) == -x
    ensures x >= 0.0 ==> Abs(x) == x
    ensures Abs(-x) == Abs(x)
  {
  }

  /** The number stored under `k`, or 0 when the key is absent: the client's
      `response[k] || 0` on a response object whose values are numbers. */
  function Lookup<K>(m: map<K, real>, k: K): real {
    if k in m then m[k] else 0.0
  }

  function Min(a: int, b: int): int {
    if a <= b then a else b
  }

  /** The sum of `f` over the elements of `xs`, in order. */
  function SumBy<T>(xs: seq<T>, f: T -> real): real
    decreases |xs|
  {
    if |xs| == 0 then 0.0 else f(xs[0]) + SumBy(xs[1..], f)
  }

  /** The sum of a sequence of reals. */
  function Sum(xs: seq<real>): real
    decreases |xs|
  {
    if |xs| == 0 then 0.0 else xs[0] + Sum(xs[1..])
  }

  lemma {:induction false} SumConcat(xs: seq<real>, ys: seq<real>)
    ensures Sum(xs + ys) == Sum(xs) + Sum(ys)
    decreases |xs|
  {
    if |xs| == 0 {
      assert xs + ys == ys;
    } else {
      assert (xs + ys)[1..] == xs[1..] + ys;
      SumConcat(xs[1..], ys);
    }
  }

  lemma {:induction false} SumByConcat<T>(xs: seq<T>, ys: seq<T>, f: T -> real)
    ensures SumBy(xs + ys, f) == SumBy(xs, f) + SumBy(ys, f)
    decreases |xs|
  {
    if |xs| == 0 {
      assert xs + ys == ys;
    } else {
      assert (xs + ys)[1..] == xs[1..] + ys;
      SumByConcat(xs[1..], ys, f);
    }
  }

  /** Two functions that agree on every element have the same sum. */
  lemma {:induction false} SumByAgree<T>(xs: seq<T>, f: T -> real, g: T -> real)
    requires forall x :: x in xs ==> f(x) == g(x)
    ensures SumBy(xs, f) == SumBy(xs, g)
    decreases |xs|
  {
    if |xs| > 0 {
      SumByAgree(xs[1..], f, g);
    }
  }

  /** A sum of pointwise sums is the sum of the two sums. */
  lemma {:induction false} SumByAdd<T>(xs: seq<T>, f: T -> real, g: T -> real, h: T -> real)
    requires forall x :: x in xs ==> h(x) == f(x) + g(x)
    ensures SumBy(xs, h) == SumBy(xs, f) + SumBy(xs, g)
    decreases |xs|
  {
    if |xs| > 0 {
      SumByAdd(xs[1..], f, g, h);
    }
  }

  /** A sum of pointwise differences is the difference of the two sums. */
  lemma {:induction false} SumBySub<T>(xs: seq<T>, f: T -> real, g: T -> real, h: T -> real)
    requires forall x :: x in xs ==> h(x) == f(x) - g(x)
    ensures SumBy(xs, h) == SumBy(xs, f) - SumBy(xs, g)
    decreases |xs|
  {
    if |xs| > 0 {
      SumBySub(xs[1..], f, g, h);
    }
  }

  /** A constant factor moves out of a sum. */
  lemma {:induction false} SumByScale<T>(xs: seq<T>, f: T -> real, c: real, h: T -> real)
    requires forall x :: x in xs ==> h(x) == c * f(x)
    ensures SumBy(xs, h) == c * SumBy(xs, f)
    decreases |xs|
  {
    if |xs| > 0 {
      SumByScale(xs[1..], f, c, h);
      assert SumBy(xs, h) == c * f(xs[0]) + c * SumBy(xs[1..], f);
    }
  }

  /** Only elements where `f` is non-zero contribute. */
  lemma {:induction false} SumByZero<T>(xs: seq<T>, f: T -> real)
    requires forall x :: x in xs ==> f(x) == 0.0
    ensures SumBy(xs, f) == 0.0
    decreases |xs|
  {
    if |xs| > 0 {
      SumByZero(xs[1..], f);
    }
  }

  lemma {:induction false} SumByNonNegative<T>(xs: seq<T>, f: T -> real)
    requires forall x :: x in xs ==> f(x) >= 0.0
    ensures SumBy(xs, f) >= 0.0
    decreases |xs|
  {
    if |xs| > 0 {
      SumByNonNegative(xs[1..], f);
    }
  }
}
