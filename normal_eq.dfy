/** The Levenberg-Marquardt normal equations: `j_to_jtj`, the damped matrix
    `A0` of `find_LM_updates`, and `calc_im_grad`. The least-squares solve
    itself is a parameter. */
module NormalEq {
  import opened Numeric

  type Matrix = seq<seq<real>>

  /** Every row has n entries. */
  predicate Rows(m: Matrix, n: nat)
  {
    forall i :: 0 <= i < |m| ==> |m[i]| == n
  }

  predicate Square(m: Matrix)
  {
    Rows(m, |m|)
  }

  predicate Symmetric(m: Matrix)
    requires Square(m)
  {
    forall i, j :: 0 <= i < |m| && 0 <= j < |m| ==> m[i][j] == m[j][i]
  }

  /** `j_to_jtj(J) = np.dot(J, J.T)`: J holds one row per parameter, so the
      product is the parameters' Gram matrix. */
  function JtJ(J: Matrix, npx: nat): (m: Matrix)
    requires Rows(J, npx)
    ensures |m| == |J| && Square(m)
  {
    seq(|J|, i requires 0 <= i < |J| =>
      seq(|J|, j requires 0 <= j < |J| => Dot(J[i], J[j])))
  }

  /** J J^T is symmetric. */
  lemma JtJSymmetric(J: Matrix, npx: nat)
    requires Rows(J, npx)
    ensures Symmetric(JtJ(J, npx))
  {
    var m := JtJ(J, npx);
    forall i, j | 0 <= i < |m| && 0 <= j < |m|
      ensures m[i][j] == m[j][i]
    {
      DotSymmetric(J[i], J[j]);
    }
  }

  /** The diagonal of J J^T holds squared row norms, so it is never negative. */
  lemma JtJDiagonalNonNegative(J: Matrix, npx: nat, i: nat)
    requires Rows(J, npx) && i < |J|
    ensures JtJ(J, npx)[i][i] >= 0.0
  {
    DotSelfNonNegative(J[i]);
  }

  /** `A0 = JTJ + damp * diagflat(diag(JTJ))`. */
  function Damped(m: Matrix, damp: real): (a: Matrix)
    requires Square(m)
    ensures |a| == |m| && Square(a)
    ensures forall i, j :: 0 <= i < |m| && 0 <= j < |m| && i != j ==> a[i][j] == m[i][j]
    ensures forall i :: 0 <= i < |m| ==> a[i][i] == (1.0 + damp) * m[i][i]
  {
    seq(|m|, i requires 0 <= i < |m| =>
      seq(|m|, j requires 0 <= j < |m| => m[i][j] + (if i == j then damp * m[i][j] else 0.0)))
  }

  /** Damping keeps a symmetric matrix symmetric. */
  lemma DampedSymmetric(m: Matrix, damp: real)
    requires Square(m) && Symmetric(m)
    ensures Symmetric(Damped(m, damp))
  {
  }

  /** Zero damping leaves JTJ as it is: the Gauss-Newton step. */
  lemma UndampedIsGaussNewton(m: Matrix)
    requires Square(m)
    ensures Damped(m, 0.0) == m
  {
    var a := Damped(m, 0.0);
    assert forall i :: 0 <= i < |m| ==> a[i] == m[i];
  }

  /** A least-squares solver `lstsq(A, b)`, returning one value per entry of b. */
  type Solver = (Matrix, seq<real>) -> seq<real>

  ghost predicate SolverShape(lstsq: Solver)
  {
    forall a, b :: |lstsq(a, b)| == |b|
  }

  /** `find_LM_updates`: the least-squares solution of A0 delta = -grad. */
  function FindLMUpdates(jtj: Matrix, grad: seq<real>, damp: real, lstsq: Solver): (delta: seq<real>)
    requires Square(jtj) && SolverShape(lstsq)
    ensures |delta| == |grad|
  {
    lstsq(Damped(jtj, damp), Neg(grad))
  }

  /** `calc_im_grad`: `np.dot(J, err)` with the residual sampled at `inds`;
      entry i is the projection of the residual on parameter i's derivative. */
  function CalcImGrad(J: Matrix, residual: seq<real>, inds: seq<nat>): (g: seq<real>)
    requires Rows(J, |inds|)
    requires forall k :: 0 <= k < |inds| ==> inds[k] < |residual|
    ensures |g| == |J|
    ensures forall i :: 0 <= i < |J| ==> g[i] == Dot(J[i], Gather(residual, inds))
  {
    MatVec(J, Gather(residual, inds))
  }
}
