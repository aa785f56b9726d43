/** Scalar and vector arithmetic with numpy's semantics written out:
    clip, Python 2 integer division, truncating int(), elementwise ops. */
module Numeric {

  /** A 3-vector of reals (a particle position, a corner in image units). */
  type Vec3 = v: seq<real> | |v| == 3 witness [0.0, 0.0, 0.0]

  /** A 3-vector of integers (an image shape, a region size, a box corner). */
  type IVec3 = v: seq<int> | |v| == 3 witness [0, 0, 0]

  function Min(a: real, b: real): real { if a <= b then a else b }
  function Max(a: real, b: real): real { if a >= b then a else b }
  function IMin(a: int, b: int): int { if a <= b then a else b }
  function IMax(a: int, b: int): int { if a >= b then a else b }

  /** `x**2`. */
  function Sq(x: real): (y: real)
    ensures y >= 0.0
  {
    x * x
  }

  /** numpy.clip(x, lo, hi) == minimum(maximum(x, lo), hi): when lo > hi
      the upper bound wins. */
  function Clip(x: real, lo: real, hi: real): (r: real)
    ensures lo <= hi ==> lo <= r <= hi
    ensures lo <= x <= hi ==> r == x
    ensures r <= hi
  {
    Min(Max(x, lo), hi)
  }

  function IClip(x: int, lo: int, hi: int): (r: int)
    ensures lo <= hi ==> lo <= r <= hi
    ensures lo <= x <= hi ==> r == x
    ensures r <= hi
  {
    IMin(IMax(x, lo), hi)
  }

  /** Python's `//` on integers rounds toward minus infinity. */
  function FloorDiv(a: int, b: int): (q: int)
    requires b != 0
    ensures b > 0 ==> q * b <= a < q * b + b
    ensures b < 0 ==> q * b >= a > q * b + b
  {
    if b > 0 then a / b else (-a) / (-b)
  }

  /** Python's `int(x)` on a float truncates toward zero. */
  function Trunc(x: real): (n: int)
    ensures x >= 0.0 ==> n as real <= x < n as real + 1.0
    ensures x < 0.0 ==> n as real - 1.0 < x <= n as real
  {
    if x >= 0.0 then x.Floor else -((-x).Floor)
  }

  function Add(a: seq<real>, b: seq<real>): (r: seq<real>)
    requires |a| == |b|
    ensures |r| == |a| && forall i :: 0 <= i < |a| ==> r[i] == a[i] + b[i]
  {
    seq(|a|, i requires 0 <= i < |a| => a[i] + b[i])
  }

  function Sub(a: seq<real>, b: seq<real>): (r: seq<real>)
    requires |a| == |b|
    ensures |r| == |a| && forall i :: 0 <= i < |a| ==> r[i] == a[i] - b[i]
  {
    seq(|a|, i requires 0 <= i < |a| => a[i] - b[i])
  }

  function Neg(a: seq<real>): (r: seq<real>)
    ensures |r| == |a| && forall i :: 0 <= i < |a| ==> r[i] == -a[i]
  {
    seq(|a|, i requires 0 <= i < |a| => -a[i])
  }

  /** Adding e and then -e - d is a move by -d. */
  lemma AddUndoes(e: seq<real>, d: seq<real>)
    requires |e| == |d|
    ensures Add(e, Sub(Neg(e), d)) == Neg(d)
  {
    var u, w := Add(e, Sub(Neg(e), d)), Neg(d);
    forall i | 0 <= i < |e| ensures u[i] == w[i] {
      assert u[i] == e[i] + (-e[i] - d[i]);
    }
  }

  function Scale(c: real, a: seq<real>): (r: seq<real>)
    ensures |r| == |a| && forall i :: 0 <= i < |a| ==> r[i] == c * a[i]
  {
    seq(|a|, i requires 0 <= i < |a| => c * a[i])
  }

  /** `a + c` for an array `a` and a scalar `c`. */
  function Shift(a: seq<real>, c: real): (r: seq<real>)
    ensures |r| == |a| && forall i :: 0 <= i < |a| ==> r[i] == a[i] + c
  {
    seq(|a|, i requires 0 <= i < |a| => a[i] + c)
  }

  function Sum(a: seq<real>): real
  {
    if |a| == 0 then 0.0 else Sum(a[..|a| - 1]) + a[|a| - 1]
  }

  function Dot(a: seq<real>, b: seq<real>): real
    requires |a| == |b|
  {
    if |a| == 0 then 0.0 else Dot(a[..|a| - 1], b[..|b| - 1]) + a[|a| - 1] * b[|b| - 1]
  }

  /** `a[inds]` for an integer index array. */
  function Gather(a: seq<real>, inds: seq<nat>): (r: seq<real>)
    requires forall k :: 0 <= k < |inds| ==> inds[k] < |a|
    ensures |r| == |inds| && forall k :: 0 <= k < |inds| ==> r[k] == a[inds[k]]
  {
    seq(|inds|, k requires 0 <= k < |inds| => a[inds[k]])
  }

  /** Matrix-vector product `np.dot(M, x)` with M given by rows. */
  function MatVec(m: seq<seq<real>>, x: seq<real>): (r: seq<real>)
    requires forall i :: 0 <= i < |m| ==> |m[i]| == |x|
    ensures |r| == |m| && forall i :: 0 <= i < |m| ==> r[i] == Dot(m[i], x)
  {
    seq(|m|, i requires 0 <= i < |m| => Dot(m[i], x))
  }

  lemma {:induction false} DotSymmetric(a: seq<real>, b: seq<real>)
    requires |a| == |b|
    ensures Dot(a, b) == Dot(b, a)
  {
    if |a| > 0 {
      DotSymmetric(a[..|a| - 1], b[..|b| - 1]);
    }
  }

  lemma {:induction false} DotSelfNonNegative(a: seq<real>)
    ensures Dot(a, a) >= 0.0
  {
    if |a| > 0 {
      DotSelfNonNegative(a[..|a| - 1]);
    }
  }
}
