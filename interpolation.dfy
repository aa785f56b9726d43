/** The exact helpers of `peri/interpolation.py`: the squared-distance
    matrices and default filter size of Barnes interpolation, and the window
    maps and order setting of Chebyshev interpolation. The Barnes weights and
    evaluation, and the Chebyshev coefficients and evaluation, are numerical
    and are not part of this model; the coefficient construction is an
    oracle. */
module Interpolation {
  import opened Wrappers
  import opened Numeric

  type Matrix = seq<seq<real>>

  /** m has n rows of m columns. */
  predicate Shape(x: Matrix, n: nat, m: nat)
  {
    |x| == n && forall i :: 0 <= i < n ==> |x[i]| == m
  }

  // ---------------------------------------------------------------------------
  // Barnes interpolation
  // ---------------------------------------------------------------------------

  /** `BarnesInterpolation1D._outer`: `(a[:, None] - b[None, :])**2`, the
      squared distance of every a_i to every b_j. */
  function Outer1D(a: seq<real>, b: seq<real>): (x: Matrix)
    ensures Shape(x, |a|, |b|)
    ensures forall i, j :: 0 <= i < |a| && 0 <= j < |b| ==> x[i][j] >= 0.0
    ensures forall i, j :: 0 <= i < |a| && 0 <= j < |b| && a[i] == b[j] ==> x[i][j] == 0.0
  {
    seq(|a|, i requires 0 <= i < |a| => seq(|b|, j requires 0 <= j < |b| => Sq(a[i] - b[j])))
  }

  /** The self-distance matrix is symmetric with a zero diagonal. */
  lemma Outer1DSelf(a: seq<real>)
    ensures forall i, j :: 0 <= i < |a| && 0 <= j < |a| ==> Outer1D(a, a)[i][j] == Outer1D(a, a)[j][i]
    ensures forall i :: 0 <= i < |a| ==> Outer1D(a, a)[i][i] == 0.0
  {
    var x := Outer1D(a, a);
    forall i, j | 0 <= i < |a| && 0 <= j < |a|
      ensures x[i][j] == x[j][i]
    {
      assert a[i] - a[j] == -(a[j] - a[i]);
    }
  }

  /** Coordinate k of every point: row k of `a.T`. */
  function Column(a: seq<seq<real>>, k: nat): (c: seq<real>)
    requires forall i :: 0 <= i < |a| ==> k < |a[i]|
    ensures |c| == |a|
  {
    seq(|a|, i requires 0 <= i < |a| => a[i][k])
  }

  /** Elementwise sum of two matrices of the same shape. */
  function AddMats(x: Matrix, y: Matrix, n: nat, m: nat): (z: Matrix)
    requires Shape(x, n, m) && Shape(y, n, m)
    ensures Shape(z, n, m)
    ensures forall i, j :: 0 <= i < n && 0 <= j < m ==> z[i][j] == x[i][j] + y[i][j]
  {
    seq(n, i requires 0 <= i < n => seq(m, j requires 0 <= j < m => x[i][j] + y[i][j]))
  }

  /** `np.sum` over the first `dims` coordinate matrices. */
  function CoordinateSum(a: seq<seq<real>>, b: seq<seq<real>>, dims: nat): (x: Matrix)
    requires dims >= 1
    requires forall i :: 0 <= i < |a| ==> |a[i]| >= dims
    requires forall j :: 0 <= j < |b| ==> |b[j]| >= dims
    ensures Shape(x, |a|, |b|)
  {
    if dims == 1 then Outer1D(Column(a, 0), Column(b, 0))
    else AddMats(CoordinateSum(a, b, dims - 1), Outer1D(Column(a, dims - 1), Column(b, dims - 1)), |a|, |b|)
  }

  /** Squared Euclidean distance over the first `dims` coordinates. */
  function SqDistN(u: seq<real>, v: seq<real>, dims: nat): (d: real)
    requires dims <= |u| && dims <= |v|
    ensures d >= 0.0
  {
    if dims == 0 then 0.0 else SqDistN(u, v, dims - 1) + Sq(u[dims - 1] - v[dims - 1])
  }

  lemma {:induction false} CoordinateSumEntries(a: seq<seq<real>>, b: seq<seq<real>>, dims: nat)
    requires dims >= 1
    requires forall i :: 0 <= i < |a| ==> |a[i]| >= dims
    requires forall j :: 0 <= j < |b| ==> |b[j]| >= dims
    ensures forall i, j :: 0 <= i < |a| && 0 <= j < |b| ==>
      CoordinateSum(a, b, dims)[i][j] == SqDistN(a[i], b[j], dims)
  {
    if dims > 1 {
      CoordinateSumEntries(a, b, dims - 1);
    }
  }

  /** `BarnesInterpolationND._outer` for points a (shape n x da) and b
      (shape m x db): entry (i, j) is the squared distance between a_i and
      b_j. With da != db, Python 2's `map` pads the shorter list of columns
      with None and slicing None fails. */
  function OuterND(a: seq<seq<real>>, da: nat, b: seq<seq<real>>, db: nat): (r: Result<Matrix>)
    requires da >= 1 && db >= 1
    requires forall i :: 0 <= i < |a| ==> |a[i]| == da
    requires forall j :: 0 <= j < |b| ==> |b[j]| == db
    ensures r.Err? <==> da != db
    ensures r.Err? ==> r.failure.TypeError?
    ensures r.Ok? ==> Shape(r.value, |a|, |b|)
    ensures r.Ok? ==> forall i, j :: 0 <= i < |a| && 0 <= j < |b| ==> r.value[i][j] == SqDistN(a[i], b[j], da)
  {
    if da != db then Err(TypeError("'NoneType' object has no attribute '__getitem__'"))
    else
      CoordinateSumEntries(a, b, da);
      Ok(CoordinateSum(a, b, da))
  }

  /** For one coordinate the N-D matrix is the 1-D one. */
  lemma OuterNDOneCoordinate(a: seq<seq<real>>, b: seq<seq<real>>)
    requires forall i :: 0 <= i < |a| ==> |a[i]| == 1
    requires forall j :: 0 <= j < |b| ==> |b[j]| == 1
    ensures OuterND(a, 1, b, 1) == Ok(Outer1D(Column(a, 0), Column(b, 0)))
  {
  }

  /** The spacings `x[1:] - x[:-1]`. */
  function Diffs(x: seq<real>): (d: seq<real>)
    requires |x| >= 1
    ensures |d| == |x| - 1
  {
    seq(|x| - 1, i requires 0 <= i < |x| - 1 => x[i + 1] - x[i])
  }

  lemma {:induction false} DiffsTelescope(x: seq<real>)
    requires |x| >= 1
    ensures Sum(Diffs(x)) == x[|x| - 1] - x[0]
    decreases |x|
  {
    if |x| > 1 {
      var y := x[..|x| - 1];
      assert Diffs(x)[..|x| - 2] == Diffs(y);
      DiffsTelescope(y);
    }
  }

  /** `BarnesInterpolation1D._default_filter_size`: half the mean spacing.
      Fewer than two points leave no spacing and numpy's mean of an empty
      array is NaN, modelled as None. */
  function DefaultFilterSize(x: seq<real>): (r: Option<real>)
    ensures r.Some? <==> |x| >= 2
  {
    if |x| < 2 then None else Some(Sum(Diffs(x)) / (|x| - 1) as real / 2.0)
  }

  /** Half the mean spacing telescopes to the span over 2(n - 1). */
  lemma FilterSizeIsHalfSpan(x: seq<real>)
    requires |x| >= 2
    ensures DefaultFilterSize(x) == Some((x[|x| - 1] - x[0]) / (2 * (|x| - 1)) as real)
  {
    DiffsTelescope(x);
    var s, n := x[|x| - 1] - x[0], (|x| - 1) as real;
    assert s / n / 2.0 == s / (2.0 * n);
  }

  /** Strictly increasing positions give a positive filter size. */
  lemma FilterSizePositive(x: seq<real>)
    requires |x| >= 2
    requires forall i :: 0 <= i < |x| - 1 ==> x[i] < x[i + 1]
    ensures DefaultFilterSize(x).Some? && DefaultFilterSize(x).value > 0.0
  {
    IncreasingSpan(x, |x| - 1);
    FilterSizeIsHalfSpan(x);
  }

  lemma {:induction false} IncreasingSpan(x: seq<real>, k: nat)
    requires 1 <= k < |x|
    requires forall i :: 0 <= i < |x| - 1 ==> x[i] < x[i + 1]
    ensures x[0] < x[k]
  {
    if k > 1 {
      IncreasingSpan(x, k - 1);
    }
  }

  // ---------------------------------------------------------------------------
  // Chebyshev interpolation
  // ---------------------------------------------------------------------------

  /** `ChebyshevInterpolation1D`: the window is fixed at construction; the
      order (evalpts, degree) and the coefficients change with `set_order`.
      `construct` stands for `_construct_coefficients` at a given order (it
      evaluates the wrapped function at the Chebyshev points). */
  class ChebyshevInterpolation1D {
    const window: (real, real)
    const construct: (int, int) -> Matrix
    var evalpts: int
    var degree: int
    var coeffs: Matrix
    /** Whether `_coeffs` has been assigned. */
    var built: bool

    /** The object before `set_order` has run. */
    constructor Blank(window: (real, real), construct: (int, int) -> Matrix)
      ensures this.window == window && this.construct == construct
      ensures evalpts == 0 && degree == 0 && coeffs == [] && !built
    {
      this.window := window;
      this.construct := construct;
      evalpts, degree, coeffs, built := 0, 0, [], false;
    }

    /** `__init__`: store the window and set the order. */
    static method New(window: (real, real), construct: (int, int) -> Matrix, degree: int, evalpts: int)
      returns (r: Result<ChebyshevInterpolation1D>)
      ensures r.Err? <==> evalpts < degree || degree < 1
      ensures evalpts < degree ==> r == Err(ValueError("Number of Chebyshev points must be > degree"))
      ensures evalpts >= degree && degree < 1 ==> r == Err(IndexError("list index out of range"))
      ensures r.Ok? ==> fresh(r.value) && r.value.window == window && r.value.construct == construct
      ensures r.Ok? ==> r.value.evalpts == evalpts && r.value.degree == degree
      ensures r.Ok? ==> r.value.built && r.value.coeffs == construct(evalpts, degree)
    {
      var ch := new ChebyshevInterpolation1D.Blank(window, construct);
      var ordered := ch.SetOrder(evalpts, degree);
      if ordered.Err? {
        return Err(ordered.failure);
      }
      return Ok(ch);
    }

    /** `set_order`: too few evaluation points is refused before anything
        changes; otherwise both fields are stored first, and building the
        coefficients fails for a degree below one (the list of degree
        coefficients is empty when its first entry is halved). */
    method SetOrder(evalpts: int, degree: int) returns (r: Result<()>)
      modifies this
      ensures evalpts < degree ==> r == Err(ValueError("Number of Chebyshev points must be > degree"))
      ensures evalpts < degree ==> unchanged(this)
      ensures evalpts >= degree ==> this.evalpts == evalpts && this.degree == degree
      ensures evalpts >= degree && degree < 1 ==>
        r == Err(IndexError("list index out of range")) && coeffs == old(coeffs) && built == old(built)
      ensures evalpts >= degree >= 1 ==> r == Ok(()) && built && coeffs == construct(evalpts, degree)
    {
      if evalpts < degree {
        return Err(ValueError("Number of Chebyshev points must be > degree"));
      }
      this.evalpts := evalpts;
      this.degree := degree;
      if degree < 1 {
        return Err(IndexError("list index out of range"));
      }
      coeffs := construct(evalpts, degree);
      built := true;
      return Ok(());
    }

    /** `_x2c`: window coordinates to Chebyshev coordinates. A window of
        zero width divides by zero. */
    function X2C(x: real): (c: Result<real>)
      ensures c.Err? <==> window.1 == window.0
      ensures c.Err? ==> c == Err(ArithmeticError("float division by zero"))
    {
      if window.1 == window.0 then Err(ArithmeticError("float division by zero"))
      else Ok((2.0 * x - window.1 - window.0) / (window.1 - window.0))
    }

    /** `_c2x`: Chebyshev coordinates back to window coordinates. */
    function C2X(c: real): real
    {
      0.5 * (window.0 + window.1 + c * (window.1 - window.0))
    }
  }

  lemma DivMul(y: real, d: real)
    requires d != 0.0
    ensures (y / d) * d == y
  {
  }

  lemma MulNonNegative(a: real, b: real)
    requires a >= 0.0 && b >= 0.0
    ensures a * b >= 0.0
  {
  }

  lemma MulDiv(k: real, d: real)
    requires d != 0.0
    ensures (k * d) / d == k
  {
  }

  /** The window ends map to the ends of [-1, 1]. */
  lemma X2CEndpoints(ch: ChebyshevInterpolation1D)
    requires ch.window.0 != ch.window.1
    ensures ch.X2C(ch.window.0) == Ok(-1.0)
    ensures ch.X2C(ch.window.1) == Ok(1.0)
  {
    var w0, w1 := ch.window.0, ch.window.1;
    assert 2.0 * w0 - w1 - w0 == -1.0 * (w1 - w0);
    assert 2.0 * w1 - w1 - w0 == 1.0 * (w1 - w0);
    MulDiv(-1.0, w1 - w0);
    MulDiv(1.0, w1 - w0);
  }

  /** `_c2x` undoes `_x2c`. */
  lemma C2XUndoesX2C(ch: ChebyshevInterpolation1D, x: real)
    requires ch.window.0 != ch.window.1
    ensures ch.C2X(ch.X2C(x).value) == x
  {
    var w0, w1 := ch.window.0, ch.window.1;
    DivMul(2.0 * x - w1 - w0, w1 - w0);
  }

  /** `_x2c` undoes `_c2x`. */
  lemma X2CUndoesC2X(ch: ChebyshevInterpolation1D, c: real)
    requires ch.window.0 != ch.window.1
    ensures ch.X2C(ch.C2X(c)) == Ok(c)
  {
    var w0, w1 := ch.window.0, ch.window.1;
    var e := 2.0 * ch.C2X(c) - w1 - w0;
    assert ch.X2C(ch.C2X(c)) == Ok(e / (w1 - w0));
    assert e == c * (w1 - w0);
    MulDiv(c, w1 - w0);
    assert e / (w1 - w0) == c;
  }

  /** For an increasing window `_x2c` is strictly increasing. */
  lemma X2CIncreasing(ch: ChebyshevInterpolation1D, x: real, y: real)
    requires ch.window.0 < ch.window.1 && x < y
    ensures ch.X2C(x).value < ch.X2C(y).value
  {
    var w0, w1 := ch.window.0, ch.window.1;
    var cx, cy := ch.X2C(x).value, ch.X2C(y).value;
    DivMul(2.0 * x - w1 - w0, w1 - w0);
    DivMul(2.0 * y - w1 - w0, w1 - w0);
    assert cx * (w1 - w0) < cy * (w1 - w0);
    assert (cy - cx) * (w1 - w0) > 0.0;
  }

  /** For an increasing window `_x2c` maps the window exactly onto [-1, 1],
      and every point of [-1, 1] comes from the window through `_c2x`. */
  lemma X2CWindowOntoUnit(ch: ChebyshevInterpolation1D, x: real, c: real)
    requires ch.window.0 < ch.window.1
    ensures ch.window.0 <= x <= ch.window.1 <==> -1.0 <= ch.X2C(x).value <= 1.0
    ensures -1.0 <= c <= 1.0 ==> ch.window.0 <= ch.C2X(c) <= ch.window.1 && ch.X2C(ch.C2X(c)) == Ok(c)
  {
    var w0, w1 := ch.window.0, ch.window.1;
    X2CEndpoints(ch);
    if x < w0 { X2CIncreasing(ch, x, w0); }
    if w0 < x { X2CIncreasing(ch, w0, x); }
    if x < w1 { X2CIncreasing(ch, x, w1); }
    if w1 < x { X2CIncreasing(ch, w1, x); }
    X2CUndoesC2X(ch, c);
    if -1.0 <= c <= 1.0 {
      MulNonNegative(1.0 - c, w1 - w0);
      MulNonNegative(1.0 + c, w1 - w0);
    }
  }
}
