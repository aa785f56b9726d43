/** Line minimization along a direction (`do_line_min`) and the sweep over
    the eigen-directions of JTJ (`do_conj_grad_jtj`). Brent's method and the
    eigen-decomposition are parameters. */
module LineSearch {
  import opened Wrappers
  import opened Numeric
  import opened Masks
  import opened States
  import opened NormalEq
  import opened PixelBudget
  import opened GlobalOpt

  /** The parameter vector at x along the line: `new_state[block] = p0 + x*vec`. */
  function Line(v0: seq<real>, block: seq<bool>, p0: seq<real>, dir: seq<real>, x: real): (w: seq<real>)
    requires |v0| == |block| && |p0| == Count(block) && |dir| == |p0|
    ensures |w| == |v0|
  {
    Replace(v0, block, Add(p0, Scale(x, dir)))
  }

  /** The k-th point of the outward search from c: c * 3^k. */
  function Probe(c: real, k: nat): (p: real)
    ensures c < 0.0 ==> p <= c && (k >= 1 ==> p < c)
    ensures c > 0.0 ==> p >= c && (k >= 1 ==> p > c)
  {
    if k == 0 then c else 3.0 * Probe(c, k - 1)
  }

  /** The error along the line, as a function of x. */
  ghost function LineErrors(err: seq<real> -> real, v0: seq<real>, block: seq<bool>, p0: seq<real>,
                            dir: seq<real>): (f: real -> real)
    requires |v0| == |block| && |p0| == Count(block) && |dir| == |p0|
    ensures forall x :: f(x) == err(Line(v0, block, p0, dir, x))
  {
    x => err(Line(v0, block, p0, dir, x))
  }

  /** Moving outward from c by factors of 3, the error eventually gets
      back up to its value at c. */
  ghost predicate Rises(f: real -> real, c: real)
  {
    exists k: nat :: k >= 1 && f(Probe(c, k)) >= f(c)
  }

  /** The condition under which the bracket search of `do_line_min` stops:
      when the error at 0 is above the better of the errors at -2 and 2, it
      must eventually rise again on that side. */
  ghost predicate BracketEnds(f: real -> real)
  {
    f(0.0) > Min(f(-2.0), f(2.0)) ==> if f(-2.0) < f(2.0) then Rises(f, -2.0) else Rises(f, 2.0)
  }

  /** A bracket for Brent's method: three increasing points with the lowest
      error at the middle one. */
  ghost predicate IsBracket(f: real -> real, b: seq<real>)
  {
    |b| == 3 && b[0] < b[1] < b[2] && f(b[1]) <= f(b[0]) && f(b[1]) <= f(b[2])
  }

  /** A bracket scipy's Brent accepts: increasing points whose middle error
      is strictly below both ends. On any other bracket it raises
      `ValueError("Not a bracketing interval.")` once it has evaluated the
      three points. */
  ghost predicate StrictBracket(f: real -> real, b: seq<real>)
  {
    |b| == 3 && b[0] < b[1] < b[2] && f(b[1]) < f(b[0]) && f(b[1]) < f(b[2])
  }

  /** The outward search from c stops at c * 3^k: the first point past c
      whose error is no longer below the error at c. */
  ghost predicate StopsAt(f: real -> real, c: real, k: nat)
  {
    k >= 1 && f(Probe(c, k)) >= f(c) && BelowUpTo(f, c, f(c), k)
  }

  /** The bracket `do_line_min` builds on the line with errors f:
      [-2, 0, 2] when the error at 0 is no worse than at both ends,
      otherwise extended outward past the better end to where the search
      stops. */
  ghost predicate FoundBracket(f: real -> real, b: seq<real>)
  {
    if f(0.0) <= Min(f(-2.0), f(2.0)) then b == [-2.0, 0.0, 2.0]
    else if f(-2.0) < f(2.0) then exists k: nat :: StopsAt(f, -2.0, k) && b == [Probe(-2.0, k), -2.0, 0.0]
    else exists k: nat :: StopsAt(f, 2.0, k) && b == [0.0, 2.0, Probe(2.0, k)]
  }

  /** The bracket found is one: increasing, with its least error in the middle. */
  lemma FoundIsBracket(f: real -> real, b: seq<real>)
    requires FoundBracket(f, b)
    ensures IsBracket(f, b)
  {
    if f(0.0) > Min(f(-2.0), f(2.0)) {
      if f(-2.0) < f(2.0) {
        var k: nat :| StopsAt(f, -2.0, k) && b == [Probe(-2.0, k), -2.0, 0.0];
      } else {
        var k: nat :| StopsAt(f, 2.0, k) && b == [0.0, 2.0, Probe(2.0, k)];
      }
    }
  }

  /** The outward search stops at one point only. */
  lemma StopsAtUnique(f: real -> real, c: real, k1: nat, k2: nat)
    requires StopsAt(f, c, k1) && StopsAt(f, c, k2)
    ensures k1 == k2
  {
  }

  /** Each line has one bracket: the search determines it. */
  lemma FoundBracketUnique(f: real -> real, b1: seq<real>, b2: seq<real>)
    requires FoundBracket(f, b1) && FoundBracket(f, b2)
    ensures b1 == b2
  {
    if f(0.0) > Min(f(-2.0), f(2.0)) {
      var c := if f(-2.0) < f(2.0) then -2.0 else 2.0;
      var k1: nat :| StopsAt(f, c, k1) && b1 == (if c < 0.0 then [Probe(c, k1), c, 0.0] else [0.0, c, Probe(c, k1)]);
      var k2: nat :| StopsAt(f, c, k2) && b2 == (if c < 0.0 then [Probe(c, k2), c, 0.0] else [0.0, c, Probe(c, k2)]);
      StopsAtUnique(f, c, k1, k2);
    }
  }

  /** On a line where the error is the same at -2, 0 and 2, the bracket
      is [-2, 0, 2] and Brent refuses it. */
  lemma FlatLineRefused(f: real -> real, b: seq<real>)
    requires f(-2.0) == f(0.0) == f(2.0) && FoundBracket(f, b)
    ensures b == [-2.0, 0.0, 2.0] && !StrictBracket(f, b)
  {
  }

  /** When the error never gets back up to its value at c, every point of
      the outward search is below it: `run` stays true and the search
      does not stop. */
  lemma FallingLineNeverStops(f: real -> real, c: real, k: nat)
    requires !Rises(f, c) && k >= 1
    ensures f(Probe(c, k)) < f(c) && !StopsAt(f, c, k)
  {
  }

  /** `for_min(x)`: move the block to p0 + x*vec and measure the error. */
  method ForMin(s: State, block: seq<bool>, p0: seq<real>, dir: seq<real>, x: real, ghost v0: seq<real>)
    returns (e: real)
    requires s.Valid() && s.Blocks() && s.paramOrder == Supported && |block| == s.size && |v0| == s.size
    requires |p0| == Count(block) && |dir| == |p0| && AgreeOutside(s.vec, v0, block)
    modifies s
    ensures s.Valid() && AgreeOutside(s.vec, v0, block)
    ensures s.vec == Line(v0, block, p0, dir, x) && e == s.err(s.vec)
  {
    ghost var v := s.vec;
    var ok := UpdateStateGlobal(s, block, Add(p0, Scale(x, dir)));
    assert ok.Ok?;
    ReplaceIgnoresInside(v, v0, block, Add(p0, Scale(x, dir)));
    ReplaceAgreesOutside(v0, block, Add(p0, Scale(x, dir)));
    e := s.err(s.vec);
  }

  /** The outward search of `do_line_min` from c = -2 or 2: evaluate
      c*3, c*9, ... until the error is no longer below `base`, the error
      at c. It returns the exponent k of the last point, c * 3^k. */
  method Expand(s: State, block: seq<bool>, p0: seq<real>, dir: seq<real>, c: real, base: real,
                ghost v0: seq<real>)
    returns (k: nat)
    requires s.Valid() && s.Blocks() && s.paramOrder == Supported && |block| == s.size && |v0| == s.size
    requires |p0| == Count(block) && |dir| == |p0| && AgreeOutside(s.vec, v0, block)
    requires var f := LineErrors(s.err, v0, block, p0, dir); Rises(f, c) && base == f(c)
    modifies s
    ensures s.Valid() && AgreeOutside(s.vec, v0, block)
    ensures var f := LineErrors(s.err, v0, block, p0, dir);
      k >= 1 && f(Probe(c, k)) >= base && BelowUpTo(f, c, base, k)
  {
    ghost var f := LineErrors(s.err, v0, block, p0, dir);
    ghost var K: nat :| K >= 1 && f(Probe(c, K)) >= base;
    var start := c;
    k := 0;
    var run := true;
    while run
      invariant s.Valid() && AgreeOutside(s.vec, v0, block)
      invariant start == Probe(c, k) && k <= K
      invariant run ==> BelowUpTo(f, c, base, k + 1) && k < K
      invariant !run ==> k >= 1 && f(Probe(c, k)) >= base && BelowUpTo(f, c, base, k)
      decreases K - k, run
    {
      start, k, run := ExpandStep(s, block, p0, dir, c, base, start, k, v0, K);
    }
  }

  /** One pass of the outward search: the next point c * 3^(k+1) and
      whether the error there is still below `base`. */
  method ExpandStep(s: State, block: seq<bool>, p0: seq<real>, dir: seq<real>, c: real, base: real,
                    start: real, k: nat, ghost v0: seq<real>, ghost K: nat)
    returns (start': real, k': nat, run: bool)
    requires s.Valid() && s.Blocks() && s.paramOrder == Supported && |block| == s.size && |v0| == s.size
    requires |p0| == Count(block) && |dir| == |p0| && AgreeOutside(s.vec, v0, block)
    requires var f := LineErrors(s.err, v0, block, p0, dir);
      f(Probe(c, K)) >= base && start == Probe(c, k) && k < K && BelowUpTo(f, c, base, k + 1)
    modifies s
    ensures s.Valid() && AgreeOutside(s.vec, v0, block)
    ensures var f := LineErrors(s.err, v0, block, p0, dir);
      k' == k + 1 && start' == Probe(c, k') && k' <= K
      && (run ==> BelowUpTo(f, c, base, k' + 1) && k' < K)
      && (!run ==> f(Probe(c, k')) >= base && BelowUpTo(f, c, base, k'))
  {
    start' := 3.0 * start;
    k' := k + 1;
    var next := ProbeAt(s, block, p0, dir, c, k', start', v0);
    run := next < base;
    SearchStep(LineErrors(s.err, v0, block, p0, dir), c, base, k', K, next);
  }

  /** What one more point tells the search: below `base`, the search goes
      on and has not reached a point at or above it; otherwise it stops
      there. */
  lemma SearchStep(f: real -> real, c: real, base: real, k: nat, K: nat, next: real)
    requires next == f(Probe(c, k)) && f(Probe(c, K)) >= base && BelowUpTo(f, c, base, k) && k <= K
    ensures next < base ==> BelowUpTo(f, c, base, k + 1) && k < K
    ensures next >= base ==> f(Probe(c, k)) >= base
  {
    if next < base {
      BelowUpToStep(f, c, base, k);
    }
  }

  /** `for_min(start)` at the k-th point of the search. */
  method ProbeAt(s: State, block: seq<bool>, p0: seq<real>, dir: seq<real>, c: real, k: nat, start: real,
                 ghost v0: seq<real>) returns (e: real)
    requires s.Valid() && s.Blocks() && s.paramOrder == Supported && |block| == s.size && |v0| == s.size
    requires |p0| == Count(block) && |dir| == |p0| && AgreeOutside(s.vec, v0, block)
    requires start == Probe(c, k)
    modifies s
    ensures s.Valid() && AgreeOutside(s.vec, v0, block)
    ensures e == LineErrors(s.err, v0, block, p0, dir)(Probe(c, k))
  {
    e := ForMin(s, block, p0, dir, start, v0);
  }

  /** Every point c * 3^j with 1 <= j < k is below base. */
  ghost predicate BelowUpTo(f: real -> real, c: real, base: real, k: nat)
  {
    forall j: nat :: 1 <= j < k ==> f(Probe(c, j)) < base
  }

  lemma BelowUpToStep(f: real -> real, c: real, base: real, k: nat)
    requires BelowUpTo(f, c, base, k) && f(Probe(c, k)) < base
    ensures BelowUpTo(f, c, base, k + 1)
  {
  }

  /** The bracket `do_line_min` hands to Brent's method, from the errors at
      -2, 2 and 0: [-2, 0, 2] when 0 is no worse than both ends, otherwise
      extended outward past the better end. */
  method FindBracket(s: State, block: seq<bool>, p0: seq<real>, dir: seq<real>, ghost v0: seq<real>)
    returns (bracket: seq<real>)
    requires s.Valid() && s.Blocks() && s.paramOrder == Supported && |block| == s.size && |v0| == s.size
    requires |p0| == Count(block) && |dir| == |p0| && AgreeOutside(s.vec, v0, block)
    requires BracketEnds(LineErrors(s.err, v0, block, p0, dir))
    modifies s
    ensures s.Valid() && AgreeOutside(s.vec, v0, block)
    ensures FoundBracket(LineErrors(s.err, v0, block, p0, dir), bracket)
  {
    ghost var f := LineErrors(s.err, v0, block, p0, dir);
    var fm2 := ForMin(s, block, p0, dir, -2.0, v0);
    var f2 := ForMin(s, block, p0, dir, 2.0, v0);
    var f0 := ForMin(s, block, p0, dir, 0.0, v0);
    if f0 > Min(fm2, f2) {
      if fm2 < f2 {
        var k := Expand(s, block, p0, dir, -2.0, fm2, v0);
        bracket := [Probe(-2.0, k), -2.0, 0.0];
        assert StopsAt(f, -2.0, k);
      } else {
        var k := Expand(s, block, p0, dir, 2.0, f2, v0);
        bracket := [0.0, 2.0, Probe(2.0, k)];
        assert StopsAt(f, 2.0, k);
      }
    } else {
      bracket := [-2.0, 0.0, 2.0];
    }
  }

  /** What `minimize_scalar(..., method='Brent')` reports on a bracket it
      accepts: the minimizer, its error, and the last point it evaluated
      after checking the bracket, where it leaves the state. */
  datatype Brent = Brent(x: real, fun: real, last: real)

  type BrentSolver = (seq<real>, seq<bool>, seq<real>, seq<real>, seq<real>, int) -> Brent

  /** The reported error is the error at the reported point. */
  ghost predicate BrentReports(err: seq<real> -> real, brent: BrentSolver)
  {
    forall v0, block, p0, dir, b, maxiter {:trigger brent(v0, block, p0, dir, b, maxiter)} ::
      |v0| == |block| && |p0| == Count(block) && |dir| == |p0| ==>
      brent(v0, block, p0, dir, b, maxiter).fun == err(Line(v0, block, p0, dir, brent(v0, block, p0, dir, b, maxiter).x))
  }

  /** `do_line_min`: minimize the error along p0 + x*vec. The bracket b is
      the one the search finds on that line. Brent refuses it with a
      ValueError unless its middle error is strictly below both ends;
      otherwise the minimizer is kept exactly when its error is no worse
      than the starting error, and the search fails with a RuntimeError
      when it is worse. */
  method DoLineMin(s: State, block: seq<bool>, dir: seq<real>, maxiter: int, brent: BrentSolver)
    returns (r: Result<()>, ghost b: seq<real>)
    requires s.Valid() && s.Blocks() && |block| == s.size && |dir| == Count(block)
    requires BrentReports(s.err, brent)
    requires BracketEnds(LineErrors(s.err, s.vec, block, Select(s.vec, block), dir))
    modifies s
    ensures s.Valid() && AgreeOutside(s.vec, old(s.vec), block)
    ensures s.paramOrder != Supported ==> r.Err? && r.failure.RuntimeError? && s.vec == old(s.vec)
    ensures s.paramOrder == Supported ==>
      FoundBracket(LineErrors(s.err, old(s.vec), block, Select(old(s.vec), block), dir), b) && |b| == 3
    ensures s.paramOrder == Supported && !StrictBracket(LineErrors(s.err, old(s.vec), block, Select(old(s.vec), block), dir), b) ==>
      r == Err(ValueError("Not a bracketing interval."))
      && s.vec == Line(old(s.vec), block, Select(old(s.vec), block), dir, b[2])
    ensures s.paramOrder == Supported && StrictBracket(LineErrors(s.err, old(s.vec), block, Select(old(s.vec), block), dir), b) ==>
      var res := brent(old(s.vec), block, Select(old(s.vec), block), dir, b, maxiter);
      (r.Ok? <==> res.fun <= old(s.err(s.vec)))
      && (r.Ok? ==> s.vec == Line(old(s.vec), block, Select(old(s.vec), block), dir, res.x))
      && (r.Err? ==> r == Err(RuntimeError("wtf")) && s.vec == Line(old(s.vec), block, Select(old(s.vec), block), dir, res.last))
    ensures r.Ok? ==> s.err(s.vec) <= old(s.err(s.vec))
  {
    var v0 := s.vec;
    var startErr := s.err(s.vec);
    var p0 := Select(s.vec, block);
    b := [];
    if s.paramOrder != Supported {
      // the first `for_min` raises before changing anything
      var failed := UpdateStateGlobal(s, block, Add(p0, Scale(-2.0, dir)));
      return failed, b;
    }
    ghost var f := LineErrors(s.err, v0, block, p0, dir);
    var bracket := FindBracket(s, block, p0, dir, v0);
    b := bracket;
    FoundIsBracket(f, b);
    var accepted := CheckBracket(s, block, p0, dir, bracket, v0);
    if !accepted {
      return Err(ValueError("Not a bracketing interval.")), b;
    }
    r := RunBrent(s, block, p0, dir, bracket, maxiter, brent, startErr, v0);
  }

  /** Brent's check of the bracket: the three points are evaluated in
      order, leaving the state at the last, and the bracket is accepted
      when the middle error is strictly below both ends. */
  method CheckBracket(s: State, block: seq<bool>, p0: seq<real>, dir: seq<real>, b: seq<real>,
                      ghost v0: seq<real>) returns (accepted: bool)
    requires s.Valid() && s.Blocks() && s.paramOrder == Supported && |block| == s.size && |v0| == s.size
    requires |p0| == Count(block) && |dir| == |p0| && AgreeOutside(s.vec, v0, block)
    requires |b| == 3 && b[0] < b[1] < b[2]
    modifies s
    ensures s.Valid() && AgreeOutside(s.vec, v0, block) && s.vec == Line(v0, block, p0, dir, b[2])
    ensures accepted <==> StrictBracket(LineErrors(s.err, v0, block, p0, dir), b)
  {
    var fa := ForMin(s, block, p0, dir, b[0], v0);
    var fb := ForMin(s, block, p0, dir, b[1], v0);
    var fc := ForMin(s, block, p0, dir, b[2], v0);
    accepted := fb < fa && fb < fc;
  }

  /** Brent's method on an accepted bracket, then the verdict of
      `do_line_min`: keep the minimizer when its error is no worse than
      the starting error, otherwise raise. */
  method RunBrent(s: State, block: seq<bool>, p0: seq<real>, dir: seq<real>, b: seq<real>, maxiter: int,
                  brent: BrentSolver, startErr: real, v0: seq<real>) returns (r: Result<()>)
    requires s.Valid() && s.Blocks() && s.paramOrder == Supported && |block| == s.size && |v0| == s.size
    requires |p0| == Count(block) && |dir| == |p0| && AgreeOutside(s.vec, v0, block)
    modifies s
    ensures s.Valid() && AgreeOutside(s.vec, v0, block)
    ensures var res := brent(v0, block, p0, dir, b, maxiter);
      (r.Ok? <==> res.fun <= startErr)
      && (r.Ok? ==> s.vec == Line(v0, block, p0, dir, res.x))
      && (r.Err? ==> r == Err(RuntimeError("wtf")) && s.vec == Line(v0, block, p0, dir, res.last))
  {
    var res := brent(v0, block, p0, dir, b, maxiter);
    var _ := ForMin(s, block, p0, dir, res.last, v0);
    if res.fun <= startErr {
      var _ := ForMin(s, block, p0, dir, res.x, v0);
      return Ok(());
    }
    return Err(RuntimeError("wtf"));
  }

  /** The bracket search ends on every line `do_line_min` can be asked to
      search on `block` from a state that agrees with v0 outside it. */
  ghost predicate BlockLinesRise(err: seq<real> -> real, v0: seq<real>, block: seq<bool>)
    requires |v0| == |block|
  {
    forall v, dir {:trigger LineErrors(err, v, block, Select(v, block), dir)} ::
      |v| == |block| && AgreeOutside(v, v0, block) && |dir| == Count(block) ==>
      BracketEnds(LineErrors(err, v, block, Select(v, block), dir))
  }

  function MaxOf(s: seq<real>): (m: real)
    requires |s| > 0
    ensures forall i :: 0 <= i < |s| ==> s[i] <= m
    ensures exists i :: 0 <= i < |s| && s[i] == m
  {
    if |s| == 1 then s[0] else Max(MaxOf(s[..|s| - 1]), s[|s| - 1])
  }

  /** Column a of a matrix given by rows: `evecs[:, a]`. */
  function Column(m: Matrix, a: nat): (c: seq<real>)
    requires forall i :: 0 <= i < |m| ==> a < |m[i]|
    ensures |c| == |m| && forall i :: 0 <= i < |m| ==> c[i] == m[i][a]
  {
    seq(|m|, i requires 0 <= i < |m| => m[i][a])
  }

  /** The directions of one sweep, in visiting order: eigen-indices from
      the highest down, skipping every one whose eigenvalue is below
      `min_eigval` times the largest. */
  function Directions(evals: seq<real>, floor: real, hi: nat): (ds: seq<nat>)
    requires hi <= |evals|
    ensures forall t :: 0 <= t < |ds| ==> ds[t] < hi && evals[ds[t]] >= floor
    ensures forall t, u :: 0 <= t < u < |ds| ==> ds[t] > ds[u]
    ensures forall a :: 0 <= a < hi && evals[a] >= floor ==> a in ds
  {
    if hi == 0 then []
    else if evals[hi - 1] >= floor then [hi - 1] + Directions(evals, floor, hi - 1)
    else Directions(evals, floor, hi - 1)
  }

  /** `np.linalg.eigh(JTJ)`: eigenvalues and the matrix whose columns are
      the eigenvectors, of the size of JTJ. */
  type EigenSolver = Matrix -> (seq<real>, Matrix)

  ghost predicate EighShape(eigh: EigenSolver)
  {
    forall m {:trigger eigh(m)} :: |eigh(m).0| == |m| && |eigh(m).1| == |m| && Rows(eigh(m).1, |m|)
  }

  /** The step along eigenvector a:
      `evecs[:,a] * 0.5*np.dot(-grad, evecs[:,a])/evals[a]`. */
  function SweepDir(evals: seq<real>, evecs: Matrix, grad: seq<real>, a: nat): (d: seq<real>)
    requires a < |evals| && evals[a] != 0.0 && Rows(evecs, |evals|) && |grad| == |evecs|
    ensures |d| == |evecs| && d == Scale(0.5 * Dot(Neg(grad), Column(evecs, a)) / evals[a], Column(evecs, a))
  {
    var col := Column(evecs, a);
    Scale(0.5 * Dot(Neg(grad), col) / evals[a], col)
  }

  /** The bracket search ends on every line of the sweep: along the step of
      each visited direction, from every state that agrees with v0 outside
      `block`. */
  ghost predicate SweepLinesRise(err: seq<real> -> real, v0: seq<real>, block: seq<bool>, ds: seq<nat>,
                                 evals: seq<real>, evecs: Matrix, grad: seq<real>)
    requires |v0| == |block| && |evecs| == Count(block) && |grad| == |evecs| && Rows(evecs, |evals|)
    requires forall t :: 0 <= t < |ds| ==> ds[t] < |evals| && evals[ds[t]] != 0.0
  {
    forall v, t {:trigger LineErrors(err, v, block, Select(v, block), SweepDir(evals, evecs, grad, ds[t]))} ::
      |v| == |block| && AgreeOutside(v, v0, block) && 0 <= t < |ds| ==>
      BracketEnds(LineErrors(err, v, block, Select(v, block), SweepDir(evals, evecs, grad, ds[t])))
  }

  /** The lines of a sweep are lines on `block`. */
  lemma SweepRisesFromBlock(err: seq<real> -> real, v0: seq<real>, v1: seq<real>, block: seq<bool>, ds: seq<nat>,
                            evals: seq<real>, evecs: Matrix, grad: seq<real>)
    requires |v0| == |block| && |v1| == |block| && |evecs| == Count(block) && |grad| == |evecs|
    requires Rows(evecs, |evals|) && forall t :: 0 <= t < |ds| ==> ds[t] < |evals| && evals[ds[t]] != 0.0
    requires BlockLinesRise(err, v0, block) && AgreeOutside(v1, v0, block)
    ensures SweepLinesRise(err, v1, block, ds, evals, evecs, grad)
  {
    forall v, t | |v| == |block| && AgreeOutside(v, v1, block) && 0 <= t < |ds|
      ensures BracketEnds(LineErrors(err, v, block, Select(v, block), SweepDir(evals, evecs, grad, ds[t])))
    {
      var dir := SweepDir(evals, evecs, grad, ds[t]);
      assert AgreeOutside(v, v0, block);
      assert BracketEnds(LineErrors(err, v, block, Select(v, block), dir));
    }
  }

  /** One line minimization per direction, in the order given. */
  method SweepDirections(s: State, block: seq<bool>, ds: seq<nat>, evals: seq<real>, evecs: Matrix,
                         grad: seq<real>, maxiter: int, brent: BrentSolver) returns (r: Result<()>)
    requires s.Valid() && s.Blocks() && |block| == s.size && |evecs| == Count(block) && |grad| == |evecs|
    requires Rows(evecs, |evals|) && forall t :: 0 <= t < |ds| ==> ds[t] < |evals| && evals[ds[t]] != 0.0
    requires BrentReports(s.err, brent) && SweepLinesRise(s.err, s.vec, block, ds, evals, evecs, grad)
    modifies s
    ensures s.Valid() && AgreeOutside(s.vec, old(s.vec), block)
    ensures r.Ok? ==> s.err(s.vec) <= old(s.err(s.vec))
    ensures r.Err? ==> r.failure.RuntimeError? || r.failure.ValueError?
  {
    ghost var v0 := s.vec;
    for t := 0 to |ds|
      invariant s.Valid() && AgreeOutside(s.vec, v0, block) && s.err(s.vec) <= s.err(v0)
    {
      var curVec := SweepDir(evals, evecs, grad, ds[t]);
      assert BracketEnds(LineErrors(s.err, s.vec, block, Select(s.vec, block), curVec));
      var done, _ := DoLineMin(s, block, curVec, maxiter, brent);
      if done.Err? {
        return Err(done.failure);
      }
    }
    return Ok(());
  }

  /** The eigenvalue below which a direction is degenerate:
      `min_eigval*evals.max()`. */
  function Floor(evals: seq<real>, minEigval: real): real
    requires |evals| > 0
  {
    minEigval * MaxOf(evals)
  }

  /** Every eigenvalue a sweep visits is non-zero: none at or above
      `min_eigval` times the largest is zero. */
  ghost predicate VisitsNonZero(eigh: EigenSolver, minEigval: real)
  {
    forall m {:trigger eigh(m)} :: |eigh(m).0| > 0 ==> NonZeroFrom(eigh(m).0, Floor(eigh(m).0, minEigval))
  }

  /** The directions a sweep visits have non-zero eigenvalues. */
  lemma VisitedNonZero(eigh: EigenSolver, minEigval: real, m: Matrix, ds: seq<nat>)
    requires VisitsNonZero(eigh, minEigval) && |eigh(m).0| > 0
    requires ds == Directions(eigh(m).0, Floor(eigh(m).0, minEigval), |eigh(m).0|)
    ensures forall t :: 0 <= t < |ds| ==> ds[t] < |eigh(m).0| && eigh(m).0[ds[t]] != 0.0
  {
    DirectionsNonZero(eigh(m).0, Floor(eigh(m).0, minEigval), ds);
  }

  /** No eigenvalue at or above the floor is zero. */
  predicate NonZeroFrom(evals: seq<real>, floor: real)
  {
    forall a :: 0 <= a < |evals| && evals[a] >= floor ==> evals[a] != 0.0
  }

  /** The sweeps of `do_conj_grad_jtj`, `num_sweeps` times over the same
      directions. */
  method Sweeps(s: State, block: seq<bool>, numSweeps: int, ds: seq<nat>, evals: seq<real>, evecs: Matrix,
                grad: seq<real>, maxiter: int, brent: BrentSolver, ghost v0: seq<real>) returns (r: Result<()>)
    requires s.Valid() && s.Blocks() && |block| == s.size && |evecs| == Count(block) && |grad| == |evecs|
    requires Rows(evecs, |evals|) && forall t :: 0 <= t < |ds| ==> ds[t] < |evals| && evals[ds[t]] != 0.0
    requires |v0| == s.size && AgreeOutside(s.vec, v0, block)
    requires BrentReports(s.err, brent) && BlockLinesRise(s.err, v0, block)
    modifies s
    ensures s.Valid() && AgreeOutside(s.vec, v0, block)
    ensures r.Ok? ==> s.err(s.vec) <= old(s.err(s.vec))
    ensures r.Err? ==> r.failure.RuntimeError? || r.failure.ValueError?
  {
    ghost var v := s.vec;
    var n := 0;
    while n < numSweeps
      invariant s.Valid() && AgreeOutside(s.vec, v0, block)
      invariant s.err(s.vec) <= s.err(v)
      decreases numSweeps - n
    {
      SweepRisesFromBlock(s.err, v0, s.vec, block, ds, evals, evecs, grad);
      var _ :- SweepDirections(s, block, ds, evals, evecs, grad, maxiter, brent);
      n := n + 1;
    }
    return Ok(());
  }

  /** The directions of a sweep have non-zero eigenvalues. */
  lemma DirectionsNonZero(evals: seq<real>, floor: real, ds: seq<nat>)
    requires ds == Directions(evals, floor, |evals|) && NonZeroFrom(evals, floor)
    ensures forall t :: 0 <= t < |ds| ==> ds[t] < |evals| && evals[ds[t]] != 0.0
  {
    forall t | 0 <= t < |ds|
      ensures ds[t] < |evals| && evals[ds[t]] != 0.0
    {
      assert ds[t] < |evals| && evals[ds[t]] >= floor;
    }
  }

  /** `do_conj_grad_jtj`: draw J once, diagonalize JTJ and line-minimize
      along each non-degenerate eigenvector, highest eigenvalue first, for
      `num_sweeps` sweeps. The sweeps never raise the error; drawing J
      moves the block unless `be_nice` is set. */
  method DoConjGradJtj(s: State, block: seq<bool>, minEigval: real, numSweeps: int, maxiter: int,
                       decimate: int, maxMem: real, minRedundant: int, dl: real, beNice: bool, threePt: bool,
                       draw: (nat, nat) -> seq<nat>, eigh: EigenSolver, brent: BrentSolver)
    returns (r: Result<()>)
    requires s.Valid() && s.Blocks() && |block| == s.size && dl != 0.0
    requires DrawShape(draw) && EighShape(eigh) && VisitsNonZero(eigh, minEigval)
    requires BrentReports(s.err, brent) && BlockLinesRise(s.err, s.vec, block)
    modifies s
    ensures s.Valid() && AgreeOutside(s.vec, old(s.vec), block)
    ensures r.Ok? && beNice ==> s.err(s.vec) <= old(s.err(s.vec))
  {
    ghost var v0 := s.vec;
    var numPx :- GetNumPxJtj(s.npix, Count(block), decimate, maxMem, minRedundant);
    var redo :- RecalcJ(s, block, numPx, draw, dl, beNice, threePt);
    var (J, inds, jtj, grad) := redo;
    var eig := eigh(jtj);
    var evals, evecs := eig.0, eig.1;
    // with no eigenvalues the sweep is empty and `evals.max()` is never reached
    var ds := if |evals| == 0 then [] else Directions(evals, Floor(evals, minEigval), |evals|);
    if |evals| > 0 {
      VisitedNonZero(eigh, minEigval, jtj, ds);
    }
    var _ :- Sweeps(s, block, numSweeps, ds, evals, evecs, grad, maxiter, brent, v0);
    return Ok(());
  }
}
