/** Single-particle operations: validating and applying one particle update
    (`update_one_particle`), batches of updates with one redraw
    (`update_particles`), the finite-difference rows of J for one particle
    and for many (`eval_one_particle_grad`, `eval_many_particle_grad`), and
    the tile enclosing several particles
    (`get_tile_from_multiple_particle_change`). */
module Particles {
  import opened Wrappers
  import opened Numeric
  import opened Tiles
  import opened States
  import opened GlobalOpt

  /** The margin `1e-6` that `fix_errors` keeps from the image edges. */
  const Eps: real := 0.000001

  /** A coordinate outside [0, hi]. */
  predicate OutOfRange(x: real, hi: int)
  {
    x < 0.0 || x > hi as real
  }

  /** `is_bad_update`: a coordinate below 0 or above the image extent, or a
      negative radius. A radius of exactly 0 passes. */
  predicate IsBad(pos: Vec3, rad: real, shape: IVec3)
  {
    OutOfRange(pos[0], shape[0]) || OutOfRange(pos[1], shape[1]) || OutOfRange(pos[2], shape[2]) || rad < 0.0
  }

  /** The clamped `(pos, rad)` arguments of a `fix_errors` update from p0:
      each coordinate of the result kept within 1e-6 of the image, the
      radius at least 1e-6, for the step (relative) or the target
      (absolute). */
  function Clamped(p0: Particle, pos: Vec3, rad: real, relative: bool, shape: IVec3): (Vec3, real)
  {
    if relative then
      ([Clip(pos[0], Eps - p0.pos[0], shape[0] as real - Eps - p0.pos[0]),
        Clip(pos[1], Eps - p0.pos[1], shape[1] as real - Eps - p0.pos[1]),
        Clip(pos[2], Eps - p0.pos[2], shape[2] as real - Eps - p0.pos[2])],
       Max(rad, Eps - p0.rad))
    else
      ([Clip(pos[0], Eps, shape[0] as real - Eps),
        Clip(pos[1], Eps, shape[1] as real - Eps),
        Clip(pos[2], Eps, shape[2] as real - Eps)],
       Max(rad, Eps))
  }

  /** The sum of two 3-vectors. */
  function Add3(x: Vec3, y: Vec3): Vec3
  {
    [x[0] + y[0], x[1] + y[1], x[2] + y[2]]
  }

  /** The particle `update_one_particle` asks for, from the old particle p0:
      `pos` and `rad` are clamped when `fix_errors` is set and the update
      would be bad, then taken relative to p0 or as they are; `typ`
      defaults to the old type. */
  function Proposed(p0: Particle, pos: Vec3, rad: real, typ: Option<real>, relative: bool,
                    fixErrors: bool, shape: IVec3): (p1: Particle)
    ensures p1.typ == if typ.Some? then typ.value else p0.typ
    ensures !fixErrors && relative ==> p1.pos == Add3(p0.pos, pos) && p1.rad == p0.rad + rad
    ensures !fixErrors && !relative ==> p1.pos == pos && p1.rad == rad
  {
    var t1 := if typ.Some? then typ.value else p0.typ;
    var asked := Target(p0, pos, rad, t1, relative);
    if fixErrors && IsBad(asked.pos, asked.rad, shape) then
      var fixed := Clamped(p0, pos, rad, relative, shape);
      Target(p0, fixed.0, fixed.1, t1, relative)
    else asked
  }

  /** The particle with arguments `pos`, `rad` and type t1, relative to p0
      or absolute. */
  function Target(p0: Particle, pos: Vec3, rad: real, t1: real, relative: bool): Particle
  {
    if relative then Particle(Add3(p0.pos, pos), p0.rad + rad, t1) else Particle(pos, rad, t1)
  }

  /** `update_one_particle`: the update raises ValueError, before touching
      the object or the image, exactly when the particle it asks for is
      bad. Otherwise the particle takes the new values, the region they
      affect is returned, and it is redrawn when `do_update_tile` is set. */
  method UpdateOneParticle(s: State, a: nat, pos: Vec3, rad: real, typ: Option<real>, relative: bool,
                           doUpdateTile: bool, fixErrors: bool) returns (r: Result<Tile>)
    requires s.Valid() && a < s.n
    modifies s
    ensures s.Valid()
    ensures var p0 := ParticleAt(old(s.vec), s.n, a);
      var p1 := Proposed(p0, pos, rad, typ, relative, fixErrors, s.shape);
      (r.Err? <==> IsBad(p1.pos, p1.rad, s.shape))
      && (r.Err? ==> r.failure.ValueError? && s.vec == old(s.vec) && s.log == old(s.log))
      && (r.Ok? ==> r.value == s.tileOf(p0, p1) && s.vec == SetParticle(old(s.vec), s.n, a, p1)
                    && s.log == old(s.log) + (if doUpdateTile then [TileUpdated(r.value)] else []))
  {
    var p0 := ParticleAt(s.vec, s.n, a);
    var p1 := Proposed(p0, pos, rad, typ, relative, fixErrors, s.shape);
    if IsBad(p1.pos, p1.rad, s.shape) {
      return Err(ValueError("Particle outside image / negative radius!"));
    }
    var tile := s.tileOf(p0, p1);
    s.SetParticleTo(a, p1);
    if doUpdateTile {
      s.UpdateTile(tile);
    }
    return Ok(tile);
  }

  /** With `fix_errors` no update raises, provided every image extent is
      at least 1 (so that the clamping window [1e-6, extent - 1e-6] is
      not empty). */
  lemma FixErrorsNeverRaises(p0: Particle, pos: Vec3, rad: real, typ: Option<real>, relative: bool,
                             shape: IVec3)
    requires forall i :: 0 <= i < 3 ==> shape[i] >= 1
    ensures var p1 := Proposed(p0, pos, rad, typ, relative, true, shape); !IsBad(p1.pos, p1.rad, shape)
  {
    assert shape[0] >= 1 && shape[1] >= 1 && shape[2] >= 1;
  }

  /** With an empty image axis `fix_errors` cannot help: clamping into an
      empty window puts the coordinate at -1e-6 and the update raises. */
  lemma EmptyAxisStillRaises(p0: Particle, rad: real, typ: Option<real>)
    ensures var shape: IVec3 := [0, 5, 5];
      var p1 := Proposed(p0, [1.0, 1.0, 1.0], rad, typ, false, true, shape);
      IsBad(p1.pos, p1.rad, shape)
  {
    var shape: IVec3 := [0, 5, 5];
    var p1 := Proposed(p0, [1.0, 1.0, 1.0], rad, typ, false, true, shape);
    assert p1.pos[0] == -Eps;
  }

  /** A radius of exactly zero inside the image is accepted. */
  lemma ZeroRadiusAccepted(p0: Particle, pos: Vec3, shape: IVec3)
    requires forall i :: 0 <= i < 3 ==> 0.0 <= pos[i] <= shape[i] as real
    ensures var p1 := Proposed(p0, pos, 0.0, None, false, false, shape);
      !IsBad(p1.pos, p1.rad, shape) && p1.rad == 0.0
  {
  }

  /** Clamping breaks the algebraic rollback that `do_levmarq_particles`
      relies on: a relative step that gets clamped, followed by the
      opposite step without clamping, does not bring the particle back; here
      the step back itself raises. */
  lemma ClampedStepDoesNotRollBack()
    ensures var shape: IVec3 := [10, 10, 10];
      var p0 := Particle([5.0, 5.0, 5.0], 1.0, 1.0);
      var p1 := Proposed(p0, [10.0, 0.0, 0.0], 0.0, None, true, true, shape);
      var p2 := Proposed(p1, [-10.0, 0.0, 0.0], 0.0, None, true, false, shape);
      p1.pos[0] == 10.0 - Eps && p2.pos[0] == -Eps && IsBad(p2.pos, p2.rad, shape)
  {
    var shape: IVec3 := [10, 10, 10];
    var p0 := Particle([5.0, 5.0, 5.0], 1.0, 1.0);
    assert Add3(p0.pos, [10.0, 0.0, 0.0])[0] > shape[0] as real;
    var p1 := Proposed(p0, [10.0, 0.0, 0.0], 0.0, None, true, true, shape);
    assert p1.pos[0] == 10.0 - Eps;
    var p2 := Proposed(p1, [-10.0, 0.0, 0.0], 0.0, None, true, false, shape);
    assert p2.pos[0] < 0.0;
  }

  // ---------------------------------------------------------------------
  // Finite differences for one particle

  /** Particle p with component k (x, y, z, then the radius) moved by d. */
  function Nudged(p: Particle, k: nat, d: real): (q: Particle)
    requires k < 4
    ensures q.typ == p.typ
  {
    if k < 3 then Particle(p.pos[k := p.pos[k] + d], p.rad, p.typ)
    else Particle(p.pos, p.rad + d, p.typ)
  }

  /** The arguments `(dx, 0)` or `(0, dr)` with which
      `eval_one_particle_grad` moves component k by d. */
  function AxisStep(k: nat, d: real): (Vec3, real)
    requires k < 4
  {
    if k < 3 then ([0.0, 0.0, 0.0][k := d], 0.0) else ([0.0, 0.0, 0.0], d)
  }

  /** A relative update without clamping by `AxisStep(k, d)` is `Nudged`. */
  lemma StepIsNudge(p: Particle, k: nat, d: real, shape: IVec3)
    requires k < 4
    ensures Proposed(p, AxisStep(k, d).0, AxisStep(k, d).1, None, true, false, shape) == Nudged(p, k, d)
  {
    var q := Proposed(p, AxisStep(k, d).0, AxisStep(k, d).1, None, true, false, shape);
    assert q.pos == Nudged(p, k, d).pos;
  }

  lemma NudgedTwice(p: Particle, k: nat, d: real, e: real)
    requires k < 4
    ensures Nudged(Nudged(p, k, d), k, e) == Nudged(p, k, d + e)
  {
  }

  /** The first k components moved by d: the particle after k axes of
      `eval_one_particle_grad`, each of which leaves its component at d. */
  function NudgedFirst(p: Particle, k: nat, d: real): Particle
    requires k <= 4
  {
    if k == 0 then p else Nudged(NudgedFirst(p, k - 1, d), k - 1, d)
  }

  /** Particle p with every coordinate and the radius moved by d. */
  function Shifted(p: Particle, d: real): Particle
  {
    Particle([p.pos[0] + d, p.pos[1] + d, p.pos[2] + d], p.rad + d, p.typ)
  }

  /** After all four axes every component is moved by d and the type is kept. */
  lemma NudgedAll(p: Particle, d: real)
    ensures NudgedFirst(p, 4, d) == Shifted(p, d)
  {
    assert NudgedFirst(p, 0, d) == p;
    var q1 := NudgedFirst(p, 1, d);
    assert q1 == Nudged(p, 0, d);
    var q2 := NudgedFirst(p, 2, d);
    assert q2 == Nudged(q1, 1, d);
    var q3 := NudgedFirst(p, 3, d);
    assert q3 == Nudged(q2, 2, d);
    assert q3.pos[0] == p.pos[0] + d && q3.pos[1] == p.pos[1] + d && q3.pos[2] == p.pos[2] + d;
    assert q3.pos == [p.pos[0] + d, p.pos[1] + d, p.pos[2] + d];
    assert NudgedFirst(p, 4, d) == Nudged(q3, 3, d);
  }

  /** Setting a particle twice keeps only the second value. */
  lemma SetParticleTwice(v: seq<real>, n: nat, a: nat, p: Particle, q: Particle)
    requires a < n && 5 * n <= |v|
    ensures SetParticle(SetParticle(v, n, a, p), n, a, q) == SetParticle(v, n, a, q)
  {
    var w := SetParticle(SetParticle(v, n, a, p), n, a, q);
    var u := SetParticle(v, n, a, q);
    forall i | 0 <= i < |v| ensures w[i] == u[i] {
      if !OfParticle(n, a, i) {
      } else if i == RadIndex(n, a) {
        assert w[i] == ParticleAt(w, n, a).rad;
      } else if i == TypIndex(n, a) {
        assert w[i] == ParticleAt(w, n, a).typ;
      } else if i == PosIndex(a, 0) {
        assert w[i] == ParticleAt(w, n, a).pos[0] && u[i] == ParticleAt(u, n, a).pos[0];
      } else if i == PosIndex(a, 1) {
        assert w[i] == ParticleAt(w, n, a).pos[1] && u[i] == ParticleAt(u, n, a).pos[1];
      } else {
        assert w[i] == ParticleAt(w, n, a).pos[2] && u[i] == ParticleAt(u, n, a).pos[2];
      }
    }
  }

  /** Only particle a's entries differ between w and v: w is v with
      particle a set to its value in w. */
  predicate Beside(w: seq<real>, v: seq<real>, n: nat, a: nat)
  {
    |w| == |v| && a < n && 5 * n <= |v| && w == SetParticle(v, n, a, ParticleAt(w, n, a))
  }

  /** The log only grows, and only by redraws. */
  predicate Redrawn(log: seq<Event>, log0: seq<Event>)
  {
    |log0| <= |log| && log[..|log0|] == log0 && forall i :: |log0| <= i < |log| ==> log[i].TileUpdated?
  }

  /** One row of the particle's J: the masked residual in `tile` after moving
      component k by dl, differenced against the residual at v (two-point)
      or after moving it by -dl (three-point), over dl or 2 dl. */
  function AxisRow(s: State, v: seq<real>, a: nat, k: nat, tile: Tile, dl: real, threePt: bool): seq<real>
    requires s.Layout() && a < s.n && 5 * s.n <= |v| && k < 4 && dl != 0.0
  {
    var p := ParticleAt(v, s.n, a);
    var i1 := s.sliced(SetParticle(v, s.n, a, Nudged(p, k, dl)), tile);
    if threePt then Scale(0.5 / dl, Sub(i1, s.sliced(SetParticle(v, s.n, a, Nudged(p, k, -dl)), tile)))
    else Scale(1.0 / dl, Sub(i1, s.sliced(v, tile)))
  }

  /** The first k rows `eval_one_particle_grad` returns for particle a of
      v. Row j is taken from the state the earlier axes left behind: unless
      `be_nice` is set, the components before j are already moved. */
  function RowsUpTo(s: State, v: seq<real>, a: nat, tile: Tile, dl: real, threePt: bool, beNice: bool, k: nat)
    : (rows: seq<seq<real>>)
    requires s.Layout() && a < s.n && 5 * s.n <= |v| && dl != 0.0 && k <= 4
    ensures |rows| == k
    ensures forall j :: 0 <= j < k ==>
      rows[j] == AxisRow(s, SetParticle(v, s.n, a, NudgedFirst(ParticleAt(v, s.n, a), j, EndOffset(dl, beNice, threePt))),
                         a, j, tile, dl, threePt)
  {
    if k == 0 then []
    else
      var p := ParticleAt(v, s.n, a);
      var row := AxisRow(s, SetParticle(v, s.n, a, NudgedFirst(p, k - 1, EndOffset(dl, beNice, threePt))),
                         a, k - 1, tile, dl, threePt);
      RowsUpTo(s, v, a, tile, dl, threePt, beNice, k - 1) + [row]
  }

  /** All four rows, in x, y, z, R order. */
  function GradRows(s: State, v: seq<real>, a: nat, tile: Tile, dl: real, threePt: bool, beNice: bool)
    : seq<seq<real>>
    requires s.Layout() && a < s.n && 5 * s.n <= |v| && dl != 0.0
  {
    RowsUpTo(s, v, a, tile, dl, threePt, beNice, 4)
  }

  /** The region the rows are sampled on: the given slicer, or else the
      tile of the first move (x by dl). */
  function GradTile(s: State, v: seq<real>, a: nat, slicer: Option<Tile>, dl: real): Tile
    requires a < s.n && 5 * s.n <= |v|
  {
    if slicer.Some? then slicer.value
    else var p := ParticleAt(v, s.n, a); s.tileOf(p, Nudged(p, 0, dl))
  }

  /** `update_one_particle(s, particle, dx, dr, relative=True)` for a move of
      component k by d. */
  method MoveAxis(s: State, a: nat, k: nat, d: real) returns (r: Result<Tile>)
    requires s.Valid() && a < s.n && k < 4
    modifies s
    ensures s.Valid() && Beside(s.vec, old(s.vec), s.n, a) && Redrawn(s.log, old(s.log))
    ensures r.Err? ==> r.failure.ValueError?
    ensures r.Ok? ==> var p := ParticleAt(old(s.vec), s.n, a);
      r.value == s.tileOf(p, Nudged(p, k, d)) && s.vec == SetParticle(old(s.vec), s.n, a, Nudged(p, k, d))
  {
    StepIsNudge(ParticleAt(s.vec, s.n, a), k, d, s.shape);
    SetParticleSame(s.vec, s.n, a);
    var step := AxisStep(k, d);
    r := UpdateOneParticle(s, a, step.0, step.1, None, true, true, false);
  }

  lemma BesideTrans(u: seq<real>, w: seq<real>, v: seq<real>, n: nat, a: nat)
    requires Beside(u, w, n, a) && Beside(w, v, n, a)
    ensures Beside(u, v, n, a)
  {
    SetParticleTwice(v, n, a, ParticleAt(w, n, a), ParticleAt(u, n, a));
  }

  lemma RedrawnTrans(l2: seq<Event>, l1: seq<Event>, l0: seq<Event>)
    requires Redrawn(l2, l1) && Redrawn(l1, l0)
    ensures Redrawn(l2, l0)
  {
    assert l2[..|l0|] == l2[..|l1|][..|l0|];
  }

  /** One axis of `eval_one_particle_grad`: the row for component k and the
      region it is sampled on; the component is left at its end offset. */
  method PerturbAxis(s: State, a: nat, k: nat, dl: real, threePt: bool, beNice: bool, slicer: Option<Tile>)
    returns (r: Result<(seq<real>, Tile)>)
    requires s.Valid() && a < s.n && k < 4 && dl != 0.0 && (slicer.None? ==> threePt)
    modifies s
    ensures s.Valid() && Beside(s.vec, old(s.vec), s.n, a) && Redrawn(s.log, old(s.log))
    ensures r.Err? ==> r.failure.ValueError?
    ensures r.Ok? ==> var p := ParticleAt(old(s.vec), s.n, a);
      r.value.1 == (if slicer.Some? then slicer.value else s.tileOf(p, Nudged(p, k, dl)))
      && r.value.0 == AxisRow(s, old(s.vec), a, k, r.value.1, dl, threePt)
      && s.vec == SetParticle(old(s.vec), s.n, a, Nudged(p, k, EndOffset(dl, beNice, threePt)))
  {
    var v := s.vec;
    ghost var log0 := s.log;
    var p := ParticleAt(v, s.n, a);
    var i0: seq<real> := [];
    if !threePt {
      i0 := s.sliced(s.vec, slicer.value);
    }
    var t :- MoveAxis(s, a, k, dl);
    var tile := if slicer.Some? then slicer.value else t;
    var i1 := s.sliced(s.vec, tile);
    ghost var v1 := s.vec;
    ghost var log1 := s.log;
    var tail := FinishAxis(s, a, k, dl, threePt, beNice, tile, v, p);
    BesideTrans(s.vec, v1, v, s.n, a);
    RedrawnTrans(s.log, log1, log0);
    if tail.Err? {
      return Err(tail.failure);
    }
    if threePt {
      return Ok((Scale(0.5 / dl, Sub(i1, tail.value)), tile));
    } else {
      return Ok((Scale(1.0 / dl, Sub(i1, i0)), tile));
    }
  }

  /** The rest of an axis once component k is at +dl: the three-point
      stencil moves it by -2 dl and reads the residual there; `be_nice`
      then moves it back, by dl (three-point) or -dl (two-point). */
  method FinishAxis(s: State, a: nat, k: nat, dl: real, threePt: bool, beNice: bool, tile: Tile,
                    ghost v: seq<real>, ghost p: Particle) returns (r: Result<seq<real>>)
    requires s.Valid() && a < s.n && k < 4 && |v| == s.size && p == ParticleAt(v, s.n, a)
    requires s.vec == SetParticle(v, s.n, a, Nudged(p, k, dl))
    modifies s
    ensures s.Valid() && Beside(s.vec, old(s.vec), s.n, a) && Redrawn(s.log, old(s.log))
    ensures r.Err? ==> r.failure.ValueError?
    ensures r.Ok? ==> (threePt ==> r.value == s.sliced(SetParticle(v, s.n, a, Nudged(p, k, -dl)), tile))
    ensures r.Ok? ==> s.vec == SetParticle(v, s.n, a, Nudged(p, k, EndOffset(dl, beNice, threePt)))
  {
    SetParticleSame(s.vec, s.n, a);
    if threePt {
      r := ThreePointTail(s, a, k, dl, beNice, tile, v, p);
    } else if beNice {
      var _ :- MoveFrom(s, a, k, dl, -dl, 0.0, v, p, s.vec, old(s.log), SetParticle(v, s.n, a, Nudged(p, k, 0.0)));
      r := Ok([]);
    } else {
      r := Ok([]);
    }
  }

  /** The three-point tail of an axis: component k moves from +dl to -dl,
      the residual is read there, and `be_nice` moves it back to 0. */
  method ThreePointTail(s: State, a: nat, k: nat, dl: real, beNice: bool, tile: Tile,
                        ghost v: seq<real>, ghost p: Particle) returns (r: Result<seq<real>>)
    requires s.Valid() && a < s.n && k < 4 && |v| == s.size && p == ParticleAt(v, s.n, a)
    requires s.vec == SetParticle(v, s.n, a, Nudged(p, k, dl))
    modifies s
    ensures s.Valid() && Beside(s.vec, old(s.vec), s.n, a) && Redrawn(s.log, old(s.log))
    ensures r.Err? ==> r.failure.ValueError?
    ensures r.Ok? ==> r.value == s.sliced(SetParticle(v, s.n, a, Nudged(p, k, -dl)), tile)
    ensures r.Ok? ==> s.vec == SetParticle(v, s.n, a, Nudged(p, k, if beNice then 0.0 else -dl))
  {
    SetParticleSame(s.vec, s.n, a);
    ghost var v1 := s.vec;
    ghost var log0 := s.log;
    ghost var wBack := SetParticle(v, s.n, a, Nudged(p, k, -dl));
    var back := MoveFrom(s, a, k, dl, -2.0 * dl, -dl, v, p, v1, log0, wBack);
    if back.Err? {
      return Err(back.failure);
    }
    var i2 := s.sliced(s.vec, tile);
    if beNice {
      var home := MoveFrom(s, a, k, -dl, dl, 0.0, v, p, v1, log0, SetParticle(v, s.n, a, Nudged(p, k, 0.0)));
      if home.Err? {
        return Err(home.failure);
      }
    }
    r := Ok(i2);
  }

  /** A move of component k by e of a particle already moved by d from p;
      the particle stays beside the state v1 it started the axis from. */
  method MoveFrom(s: State, a: nat, k: nat, d: real, e: real, ghost f: real, ghost v: seq<real>,
                  ghost p: Particle, ghost v1: seq<real>, ghost log0: seq<Event>, ghost target: seq<real>)
    returns (r: Result<Tile>)
    requires s.Valid() && a < s.n && k < 4 && |v| == s.size && p == ParticleAt(v, s.n, a) && f == d + e
    requires s.vec == SetParticle(v, s.n, a, Nudged(p, k, d)) && target == SetParticle(v, s.n, a, Nudged(p, k, f))
    requires Beside(s.vec, v1, s.n, a) && Redrawn(s.log, log0)
    modifies s
    ensures s.Valid() && Beside(s.vec, v1, s.n, a) && Redrawn(s.log, log0)
    ensures r.Err? ==> r.failure.ValueError?
    ensures r.Ok? ==> s.vec == target
  {
    ghost var v2 := s.vec;
    ghost var log2 := s.log;
    r := MoveAxis(s, a, k, e);
    BesideTrans(s.vec, v2, v1, s.n, a);
    RedrawnTrans(s.log, log2, log0);
    MoveTwice(v, s.n, a, p, k, d, e, f);
  }

  /** Moving component k by d and then by e, each by a particle update,
      moves it by d + e. */
  lemma MoveTwice(v: seq<real>, n: nat, a: nat, p: Particle, k: nat, d: real, e: real, f: real)
    requires a < n && 5 * n <= |v| && k < 4 && p == ParticleAt(v, n, a) && f == d + e
    ensures var w := SetParticle(v, n, a, Nudged(p, k, d));
      SetParticle(w, n, a, Nudged(ParticleAt(w, n, a), k, e)) == SetParticle(v, n, a, Nudged(p, k, f))
  {
    NudgedTwice(p, k, d, e);
    SetParticleTwice(v, n, a, Nudged(p, k, d), Nudged(p, k, f));
  }

  /** `eval_one_particle_grad`: the four rows of J for particle a in x, y,
      z, R order, and the region they are sampled on. Without a slicer the
      two-point stencil reads the unbound `mask` and fails before moving
      anything. Each component ends at its original value (`be_nice`),
      at +dl (two-point) or at -dl (three-point). */
  method EvalOneParticleGrad(s: State, a: nat, dl: real, threePt: bool, slicer: Option<Tile>, beNice: bool)
    returns (r: Result<(seq<seq<real>>, Tile)>)
    requires s.Valid() && a < s.n && dl != 0.0
    modifies s
    ensures s.Valid() && Beside(s.vec, old(s.vec), s.n, a) && Redrawn(s.log, old(s.log))
    ensures slicer.None? && !threePt ==> r == Err(NameError("mask")) && s.vec == old(s.vec) && s.log == old(s.log)
    ensures r.Err? ==> r.failure.ValueError? || r.failure.NameError?
    ensures r.Ok? ==> var p := ParticleAt(old(s.vec), s.n, a);
      var off := EndOffset(dl, beNice, threePt);
      r.value.1 == GradTile(s, old(s.vec), a, slicer, dl)
      && r.value.0 == GradRows(s, old(s.vec), a, r.value.1, dl, threePt, beNice)
      && s.vec == SetParticle(old(s.vec), s.n, a, Shifted(p, off))
  {
    SetParticleSame(s.vec, s.n, a);
    if slicer.None? && !threePt {
      return Err(NameError("mask"));
    }
    ghost var v := s.vec;
    ghost var p := ParticleAt(v, s.n, a);
    var grad :- GradLoop(s, a, dl, threePt, slicer, beNice, v);
    ghost var off := EndOffset(dl, beNice, threePt);
    NudgedAll(p, off);
    return Ok((grad.0, grad.1.value));
  }

  /** The loop of `eval_one_particle_grad` over the four axes. */
  method GradLoop(s: State, a: nat, dl: real, threePt: bool, slicer: Option<Tile>, beNice: bool,
                  ghost v: seq<real>) returns (r: Result<(seq<seq<real>>, Option<Tile>)>)
    requires s.Valid() && a < s.n && dl != 0.0 && (slicer.None? ==> threePt) && s.vec == v
    modifies s
    ensures s.Valid() && Beside(s.vec, v, s.n, a) && Redrawn(s.log, old(s.log))
    ensures r.Err? ==> r.failure.ValueError?
    ensures r.Ok? ==> GradAt(s, v, a, dl, threePt, beNice, slicer, 4, r.value.1, r.value.0)
  {
    SetParticleSame(s.vec, s.n, a);
    var rows: seq<seq<real>> := [];
    var cur := slicer;
    for k := 0 to 4
      invariant s.Valid() && Redrawn(s.log, old(s.log)) && Beside(s.vec, v, s.n, a)
      invariant GradAt(s, v, a, dl, threePt, beNice, slicer, k, cur, rows)
    {
      var next :- GradStep(s, a, dl, threePt, beNice, slicer, k, v, old(s.log), cur, rows);
      rows, cur := next.0, next.1;
    }
    return Ok((rows, cur));
  }

  /** The state of `eval_one_particle_grad` for particle a of v after k
      axes: the first k components are at their end offset, the first k
      rows are taken, and the region is fixed once the first axis is done. */
  ghost predicate GradAt(s: State, v: seq<real>, a: nat, dl: real, threePt: bool, beNice: bool,
                         slicer: Option<Tile>, k: nat, cur: Option<Tile>, rows: seq<seq<real>>)
    reads s
    requires s.Valid() && a < s.n && |v| == s.size && dl != 0.0 && k <= 4
  {
    var p := ParticleAt(v, s.n, a);
    s.vec == SetParticle(v, s.n, a, NudgedFirst(p, k, EndOffset(dl, beNice, threePt)))
    && (k == 0 ==> cur == slicer)
    && (k > 0 ==> cur == Some(GradTile(s, v, a, slicer, dl)))
    && rows == RowsUpTo(s, v, a, GradTile(s, v, a, slicer, dl), dl, threePt, beNice, k)
  }

  /** One pass of the loop of `eval_one_particle_grad`: the row of axis k. */
  method GradStep(s: State, a: nat, dl: real, threePt: bool, beNice: bool, slicer: Option<Tile>, k: nat,
                  ghost v: seq<real>, ghost log0: seq<Event>, cur: Option<Tile>, rows: seq<seq<real>>)
    returns (r: Result<(seq<seq<real>>, Option<Tile>)>)
    requires s.Valid() && a < s.n && |v| == s.size && dl != 0.0 && k < 4 && (slicer.None? ==> threePt)
    requires GradAt(s, v, a, dl, threePt, beNice, slicer, k, cur, rows) && Redrawn(s.log, log0)
    modifies s
    ensures s.Valid() && Redrawn(s.log, log0) && Beside(s.vec, v, s.n, a)
    ensures r.Err? ==> r.failure.ValueError?
    ensures r.Ok? ==> GradAt(s, v, a, dl, threePt, beNice, slicer, k + 1, r.value.1, r.value.0)
  {
    ghost var p := ParticleAt(v, s.n, a);
    ghost var off := EndOffset(dl, beNice, threePt);
    assert NudgedFirst(p, 0, off) == p;
    ghost var v0 := s.vec;
    ghost var log1 := s.log;
    var axis := PerturbAxis(s, a, k, dl, threePt, beNice, cur);
    BesideTrans(s.vec, v0, v, s.n, a);
    RedrawnTrans(s.log, log1, log0);
    if axis.Err? {
      return Err(axis.failure);
    }
    var res := axis.value;
    SetParticleTwice(v, s.n, a, NudgedFirst(p, k, off), NudgedFirst(p, k + 1, off));
    return Ok((rows + [res.0], Some(res.1)));
  }

  /** The rows and the final parameters of `eval_many_particle_grad` over
      the particles ps, one particle after another. */
  function ManyGrad(s: State, v: seq<real>, ps: seq<nat>, dl: real, threePt: bool, slicer: Option<Tile>,
                    beNice: bool): (res: (seq<seq<real>>, seq<real>))
    requires s.Layout() && 5 * s.n <= |v| && dl != 0.0 && forall k :: 0 <= k < |ps| ==> ps[k] < s.n
    ensures |res.0| == 4 * |ps| && |res.1| == |v|
  {
    if |ps| == 0 then ([], v)
    else
      var (rows, w) := ManyGrad(s, v, ps[..|ps| - 1], dl, threePt, slicer, beNice);
      var a := ps[|ps| - 1];
      var p := ParticleAt(w, s.n, a);
      var off := EndOffset(dl, beNice, threePt);
      (rows + GradRows(s, w, a, GradTile(s, w, a, slicer, dl), dl, threePt, beNice),
       SetParticle(w, s.n, a, Shifted(p, off)))
  }

  /** `eval_many_particle_grad`: four rows per particle, in the order the
      particles are given. */
  method EvalManyParticleGrad(s: State, ps: seq<nat>, dl: real, threePt: bool, slicer: Option<Tile>,
                              beNice: bool) returns (r: Result<seq<seq<real>>>)
    requires s.Valid() && dl != 0.0 && forall k :: 0 <= k < |ps| ==> ps[k] < s.n
    modifies s
    ensures s.Valid() && Redrawn(s.log, old(s.log))
    ensures r.Err? ==> r.failure.ValueError? || r.failure.NameError?
    ensures r.Ok? ==> (|r.value| == 4 * |ps|
      && (r.value, s.vec) == ManyGrad(s, old(s.vec), ps, dl, threePt, slicer, beNice))
  {
    var rows: seq<seq<real>> := [];
    ghost var v := s.vec;
    for k := 0 to |ps|
      invariant s.Valid() && Redrawn(s.log, old(s.log)) && |v| == s.size
      invariant (rows, s.vec) == ManyGrad(s, v, ps[..k], dl, threePt, slicer, beNice)
    {
      rows :- ManyStep(s, ps, dl, threePt, slicer, beNice, k, v, old(s.log), rows);
    }
    assert ps[..|ps|] == ps;
    return Ok(rows);
  }

  /** One pass of the loop of `eval_many_particle_grad`: the rows of
      particle ps[k]. */
  method ManyStep(s: State, ps: seq<nat>, dl: real, threePt: bool, slicer: Option<Tile>, beNice: bool, k: nat,
                  ghost v: seq<real>, ghost log0: seq<Event>, rows: seq<seq<real>>)
    returns (r: Result<seq<seq<real>>>)
    requires s.Valid() && dl != 0.0 && forall j :: 0 <= j < |ps| ==> ps[j] < s.n
    requires k < |ps| && |v| == s.size && Redrawn(s.log, log0)
    requires (rows, s.vec) == ManyGrad(s, v, ps[..k], dl, threePt, slicer, beNice)
    modifies s
    ensures s.Valid() && Redrawn(s.log, log0)
    ensures r.Err? ==> r.failure.ValueError? || r.failure.NameError?
    ensures r.Ok? ==> (r.value, s.vec) == ManyGrad(s, v, ps[..k + 1], dl, threePt, slicer, beNice)
  {
    ghost var log1 := s.log;
    var one := EvalOneParticleGrad(s, ps[k], dl, threePt, slicer, beNice);
    RedrawnTrans(s.log, log1, log0);
    if one.Err? {
      return Err(one.failure);
    }
    ManyGradStep(s, v, ps, dl, threePt, slicer, beNice, k);
    return Ok(rows + one.value.0);
  }

  /** ManyGrad over one more particle: the prefix's rows followed by the
      four rows of particle ps[k], taken where the prefix left it. */
  lemma ManyGradStep(s: State, v: seq<real>, ps: seq<nat>, dl: real, threePt: bool, slicer: Option<Tile>,
                     beNice: bool, k: nat)
    requires s.Layout() && 5 * s.n <= |v| && dl != 0.0 && forall j :: 0 <= j < |ps| ==> ps[j] < s.n
    requires k < |ps|
    ensures var (rows, w) := ManyGrad(s, v, ps[..k], dl, threePt, slicer, beNice);
      var a := ps[k];
      ManyGrad(s, v, ps[..k + 1], dl, threePt, slicer, beNice)
      == (rows + GradRows(s, w, a, GradTile(s, w, a, slicer, dl), dl, threePt, beNice),
          SetParticle(w, s.n, a, Shifted(ParticleAt(w, s.n, a), EndOffset(dl, beNice, threePt))))
  {
    assert ps[..k + 1][..k] == ps[..k];
  }

  // ---------------------------------------------------------------------
  // Tiles of several particles

  /** The tile `_tile_from_particle_change` gives each listed particle left
      where it is. */
  function StillTiles(s: State, v: seq<real>, inds: seq<nat>): (ts: seq<Tile>)
    requires 5 * s.n <= |v| && forall k :: 0 <= k < |inds| ==> inds[k] < s.n
    ensures |ts| == |inds|
  {
    seq(|inds|, k requires 0 <= k < |inds| =>
      s.tileOf(ParticleAt(v, s.n, inds[k]), ParticleAt(v, s.n, inds[k])))
  }

  /** `get_tile_from_multiple_particle_change`: the least tile enclosing
      every listed particle's tile; no particles is a ValueError from
      `np.min` of an empty list. */
  method GetTileFromMultipleParticleChange(s: State, inds: seq<nat>) returns (r: Result<Tile>)
    requires s.Valid() && forall k :: 0 <= k < |inds| ==> inds[k] < s.n
    ensures r.Err? <==> |inds| == 0
    ensures r.Err? ==> r.failure.ValueError?
    ensures r.Ok? ==> var ts := StillTiles(s, s.vec, inds);
      r.value == Union(ts)
      && (forall k :: 0 <= k < |ts| ==> Encloses(r.value, ts[k]))
      && (forall t :: (forall k :: 0 <= k < |ts| ==> Encloses(t, ts[k])) ==> Encloses(t, r.value))
  {
    ghost var ts := StillTiles(s, s.vec, inds);
    var allLeft: seq<Corner> := [];
    var allRight: seq<Corner> := [];
    for k := 0 to |inds|
      invariant allLeft == Lefts(ts[..k]) && allRight == Rights(ts[..k])
    {
      var p0 := ParticleAt(s.vec, s.n, inds[k]);
      var tile := s.tileOf(p0, p0);
      allLeft := allLeft + [tile.l];
      allRight := allRight + [tile.r];
    }
    if |inds| == 0 {
      return Err(ValueError("zero-size array to reduction operation minimum which has no identity"));
    }
    assert ts[..|inds|] == ts;
    forall k | 0 <= k < |ts| ensures Encloses(Union(ts), ts[k]) {
      UnionEncloses(ts, k);
    }
    forall t | forall k :: 0 <= k < |ts| ==> Encloses(t, ts[k]) ensures Encloses(t, Union(ts)) {
      UnionIsLeast(ts, t);
    }
    return Ok(Tile(MinCorner(allLeft), MaxCorner(allRight)));
  }

  // ---------------------------------------------------------------------
  // Batches of updates

  /** The parameters of particle k in the flat update vector: position
      `params[4k..4k+3]`, radius `params[4k+3]`. */
  function PosOf(params: seq<real>, k: nat): Vec3
    requires 4 * k + 4 <= |params|
  {
    params[4 * k..4 * k + 3]
  }

  /** The particle updates of `update_particles` applied in order to the
      particle list `parts`: the new list, or the ValueError of the first
      update that is bad. */
  function ApplyAll(s: State, parts: seq<Particle>, ps: seq<nat>, params: seq<real>, relative: bool,
                    fixErrors: bool): (res: Result<seq<Particle>>)
    requires 4 * |ps| <= |params| && forall k :: 0 <= k < |ps| ==> ps[k] < |parts|
    ensures res.Ok? ==> |res.value| == |parts|
    ensures res.Err? ==> res == Err(ValueError("Particle outside image / negative radius!"))
  {
    if |ps| == 0 then Ok(parts)
    else
      match ApplyAll(s, parts, ps[..|ps| - 1], params, relative, fixErrors)
      case Err(f) => Err(f)
      case Ok(w) =>
        var k := |ps| - 1;
        var p1 := Proposed(w[ps[k]], PosOf(params, k), params[4 * k + 3], None, relative, fixErrors, s.shape);
        if IsBad(p1.pos, p1.rad, s.shape) then Err(ValueError("Particle outside image / negative radius!"))
        else Ok(w[ps[k] := p1])
  }

  /** The tile each update of a successful batch reports, from the
      particle before and after it. */
  function UpdatedTiles(s: State, parts: seq<Particle>, ps: seq<nat>, params: seq<real>, relative: bool,
                        fixErrors: bool): (ts: seq<Tile>)
    requires 4 * |ps| <= |params| && forall k :: 0 <= k < |ps| ==> ps[k] < |parts|
    requires ApplyAll(s, parts, ps, params, relative, fixErrors).Ok?
    ensures |ts| == |ps|
  {
    if |ps| == 0 then []
    else
      var k := |ps| - 1;
      var p0 := ApplyAll(s, parts, ps[..k], params, relative, fixErrors).value[ps[k]];
      var p1 := Proposed(p0, PosOf(params, k), params[4 * k + 3], None, relative, fixErrors, s.shape);
      UpdatedTiles(s, parts, ps[..k], params, relative, fixErrors) + [s.tileOf(p0, p1)]
  }

  /** The left and right corners of the updated tiles, with open entries
      filled by the image bounds (`clean_up_tile`). */
  function CleanLefts(ts: seq<Tile>): (cs: seq<IVec3>)
    ensures |cs| == |ts| && forall k :: 0 <= k < |ts| ==> cs[k] == CleanUp(ts[k].l, [0, 0, 0])
  {
    seq(|ts|, k requires 0 <= k < |ts| => CleanUp(ts[k].l, [0, 0, 0]))
  }

  function CleanRights(ts: seq<Tile>, shape: IVec3): (cs: seq<IVec3>)
    ensures |cs| == |ts| && forall k :: 0 <= k < |ts| ==> cs[k] == CleanUp(ts[k].r, shape)
  {
    seq(|ts|, k requires 0 <= k < |ts| => CleanUp(ts[k].r, shape))
  }

  lemma CleanSnoc(ts: seq<Tile>, t: Tile, shape: IVec3)
    ensures CleanLefts(ts + [t]) == CleanLefts(ts) + [CleanUp(t.l, [0, 0, 0])]
    ensures CleanRights(ts + [t], shape) == CleanRights(ts, shape) + [CleanUp(t.r, shape)]
  {
    assert (ts + [t])[|ts|] == t;
    assert forall k :: 0 <= k < |ts| ==> (ts + [t])[k] == ts[k];
  }

  /** `update_particles`: apply each particle's update without redrawing,
      then redraw once the even-aligned, clipped box around all the
      updated tiles. An empty particle list fails in `np.min`. Entries of
      the other sub-models are kept. */
  method UpdateParticles(s: State, ps: seq<nat>, params: seq<real>, relative: bool, fixErrors: bool)
    returns (r: Result<Redraw>)
    requires s.Valid() && 4 * |ps| <= |params| && forall k :: 0 <= k < |ps| ==> ps[k] < s.n
    modifies s
    ensures s.Valid()
    ensures var applied := ApplyAll(s, ParticlesOf(old(s.vec), s.n), ps, params, relative, fixErrors);
      (r.Err? <==> applied.Err? || |ps| == 0)
      && (r.Err? ==> r.failure.ValueError?)
      && (r.Ok? ==>
            var ts := UpdatedTiles(s, ParticlesOf(old(s.vec), s.n), ps, params, relative, fixErrors);
            ParticlesOf(s.vec, s.n) == applied.value && Others(s.vec, s.n) == Others(old(s.vec), s.n)
            && r.value == RedrawTiles(CleanLefts(ts), CleanRights(ts, s.shape), s.shape)
            && s.log == old(s.log) + [TileUpdated(r.value.outer)])
  {
    var corners :- ApplyBatch(s, ps, params, relative, fixErrors);
    if |ps| == 0 {
      return Err(ValueError("zero-size array to reduction operation minimum which has no identity"));
    }
    var redraw := RedrawTiles(corners.0, corners.1, s.shape);
    s.UpdateTile(redraw.outer);
    return Ok(redraw);
  }

  /** The loop of `update_particles`: every update in turn, collecting the
      cleaned corners of the tiles they report; stops at the first bad one. */
  method ApplyBatch(s: State, ps: seq<nat>, params: seq<real>, relative: bool, fixErrors: bool)
    returns (r: Result<(seq<IVec3>, seq<IVec3>)>)
    requires s.Valid() && 4 * |ps| <= |params| && forall k :: 0 <= k < |ps| ==> ps[k] < s.n
    modifies s
    ensures s.Valid() && s.log == old(s.log)
    ensures var applied := ApplyAll(s, ParticlesOf(old(s.vec), s.n), ps, params, relative, fixErrors);
      (r.Err? <==> applied.Err?)
      && (r.Err? ==> r.failure.ValueError?)
      && (r.Ok? ==>
            var ts := UpdatedTiles(s, ParticlesOf(old(s.vec), s.n), ps, params, relative, fixErrors);
            ParticlesOf(s.vec, s.n) == applied.value && Others(s.vec, s.n) == Others(old(s.vec), s.n)
            && r.value == (CleanLefts(ts), CleanRights(ts, s.shape)))
  {
    ghost var parts := ParticlesOf(s.vec, s.n);
    ghost var others := Others(s.vec, s.n);
    ghost var ts: seq<Tile> := [];
    var corners: (seq<IVec3>, seq<IVec3>) := ([], []);
    for k := 0 to |ps|
      invariant s.Valid() && s.log == old(s.log)
      invariant BatchAt(s, parts, others, ps, params, relative, fixErrors, k, ts, corners)
    {
      var next;
      next, ts := ApplyNext(s, ps, params, relative, fixErrors, k, parts, others, ts, corners);
      if next.Err? {
        return Err(next.failure);
      }
      corners := next.value;
    }
    assert ps[..|ps|] == ps;
    return Ok(corners);
  }

  /** The state of `update_particles` after its first k updates: the
      particle list is the prefix's result, the other entries are as they
      were, and the corners collected are those of the prefix's tiles. */
  ghost predicate BatchAt(s: State, parts: seq<Particle>, others: seq<real>, ps: seq<nat>, params: seq<real>,
                          relative: bool, fixErrors: bool, k: nat, ts: seq<Tile>,
                          corners: (seq<IVec3>, seq<IVec3>))
    reads s
    requires s.Valid() && 4 * |ps| <= |params| && forall j :: 0 <= j < |ps| ==> ps[j] < |parts|
    requires k <= |ps|
  {
    Others(s.vec, s.n) == others
    && ApplyAll(s, parts, ps[..k], params, relative, fixErrors) == Ok(ParticlesOf(s.vec, s.n))
    && ts == UpdatedTiles(s, parts, ps[..k], params, relative, fixErrors)
    && corners == (CleanLefts(ts), CleanRights(ts, s.shape))
  }

  /** One step of `update_particles`: update particle ps[k] without
      redrawing and add the cleaned corners of its tile. */
  method ApplyNext(s: State, ps: seq<nat>, params: seq<real>, relative: bool, fixErrors: bool, k: nat,
                   ghost parts: seq<Particle>, ghost others: seq<real>, ghost ts: seq<Tile>,
                   corners: (seq<IVec3>, seq<IVec3>))
    returns (r: Result<(seq<IVec3>, seq<IVec3>)>, ghost ts': seq<Tile>)
    requires s.Valid() && |parts| == s.n && 4 * |ps| <= |params| && forall j :: 0 <= j < |ps| ==> ps[j] < s.n
    requires k < |ps| && BatchAt(s, parts, others, ps, params, relative, fixErrors, k, ts, corners)
    modifies s
    ensures s.Valid() && s.log == old(s.log)
    ensures r.Err? ==> r.failure.ValueError? && ApplyAll(s, parts, ps, params, relative, fixErrors).Err?
    ensures r.Ok? ==> BatchAt(s, parts, others, ps, params, relative, fixErrors, k + 1, ts', r.value)
  {
    ghost var v0 := s.vec;
    var t := UpdateOneParticle(s, ps[k], PosOf(params, k), params[4 * k + 3], None, relative, false, fixErrors);
    if t.Err? {
      BatchStepFails(s, parts, ps, params, relative, fixErrors, k, v0);
      return Err(t.failure), ts;
    }
    BatchStep(s, parts, ps, params, relative, fixErrors, k, v0, s.vec);
    CleanSnoc(ts, t.value, s.shape);
    ts' := ts + [t.value];
    r := Ok((corners.0 + [CleanUp(t.value.l, [0, 0, 0])], corners.1 + [CleanUp(t.value.r, s.shape)]));
  }

  /** The update of ps[k] from a state v0 that holds the prefix's result
      extends the prefix's result and its tiles by one. */
  lemma BatchStep(s: State, parts: seq<Particle>, ps: seq<nat>, params: seq<real>, relative: bool,
                  fixErrors: bool, k: nat, v0: seq<real>, w: seq<real>)
    requires 4 * |ps| <= |params| && |parts| == s.n && 5 * s.n <= |v0|
    requires forall j :: 0 <= j < |ps| ==> ps[j] < s.n
    requires k < |ps| && ApplyAll(s, parts, ps[..k], params, relative, fixErrors) == Ok(ParticlesOf(v0, s.n))
    requires var p0 := ParticleAt(v0, s.n, ps[k]);
      var p1 := Proposed(p0, PosOf(params, k), params[4 * k + 3], None, relative, fixErrors, s.shape);
      !IsBad(p1.pos, p1.rad, s.shape) && w == SetParticle(v0, s.n, ps[k], p1)
    ensures ApplyAll(s, parts, ps[..k + 1], params, relative, fixErrors) == Ok(ParticlesOf(w, s.n))
    ensures Others(w, s.n) == Others(v0, s.n)
    ensures var p0 := ParticleAt(v0, s.n, ps[k]);
      var p1 := Proposed(p0, PosOf(params, k), params[4 * k + 3], None, relative, fixErrors, s.shape);
      UpdatedTiles(s, parts, ps[..k + 1], params, relative, fixErrors)
      == UpdatedTiles(s, parts, ps[..k], params, relative, fixErrors) + [s.tileOf(p0, p1)]
  {
    ApplyAllStep(s, parts, ps, params, relative, fixErrors, k);
    var p1 := Proposed(ParticleAt(v0, s.n, ps[k]), PosOf(params, k), params[4 * k + 3], None, relative,
                       fixErrors, s.shape);
    SetParticleAbstract(v0, s.n, ps[k], p1);
  }

  /** A rejected update of ps[k] after a successful prefix fails the batch. */
  lemma BatchStepFails(s: State, parts: seq<Particle>, ps: seq<nat>, params: seq<real>, relative: bool,
                       fixErrors: bool, k: nat, v0: seq<real>)
    requires 4 * |ps| <= |params| && |parts| == s.n && 5 * s.n <= |v0|
    requires forall j :: 0 <= j < |ps| ==> ps[j] < s.n
    requires k < |ps| && ApplyAll(s, parts, ps[..k], params, relative, fixErrors) == Ok(ParticlesOf(v0, s.n))
    requires var p1 := Proposed(ParticleAt(v0, s.n, ps[k]), PosOf(params, k), params[4 * k + 3], None, relative,
                                fixErrors, s.shape);
      IsBad(p1.pos, p1.rad, s.shape)
    ensures ApplyAll(s, parts, ps, params, relative, fixErrors).Err?
  {
    ApplyAllStep(s, parts, ps, params, relative, fixErrors, k);
    UpdateStopsAtFirstBad(s, parts, ps, params, relative, fixErrors, k + 1);
  }

  /** ApplyAll over one more update: the prefix's result followed by the
      update of ps[k], which reports the tile of that change. */
  lemma ApplyAllStep(s: State, parts: seq<Particle>, ps: seq<nat>, params: seq<real>, relative: bool,
                     fixErrors: bool, k: nat)
    requires 4 * |ps| <= |params| && forall j :: 0 <= j < |ps| ==> ps[j] < |parts|
    requires k < |ps|
    ensures var prev := ApplyAll(s, parts, ps[..k], params, relative, fixErrors);
      var next := ApplyAll(s, parts, ps[..k + 1], params, relative, fixErrors);
      (prev.Err? ==> next.Err?)
      && (prev.Ok? ==>
            var p0 := prev.value[ps[k]];
            var p1 := Proposed(p0, PosOf(params, k), params[4 * k + 3], None, relative, fixErrors, s.shape);
            (next.Err? <==> IsBad(p1.pos, p1.rad, s.shape))
            && (next.Ok? ==>
                  next.value == prev.value[ps[k] := p1]
                  && UpdatedTiles(s, parts, ps[..k + 1], params, relative, fixErrors)
                     == UpdatedTiles(s, parts, ps[..k], params, relative, fixErrors) + [s.tileOf(p0, p1)]))
  {
    assert ps[..k + 1][..k] == ps[..k];
    assert ps[..k + 1][k] == ps[k];
  }

  /** Once a prefix of the updates fails, the whole batch fails. */
  lemma {:induction false} UpdateStopsAtFirstBad(s: State, parts: seq<Particle>, ps: seq<nat>, params: seq<real>,
                                                 relative: bool, fixErrors: bool, k: nat)
    requires 4 * |ps| <= |params| && forall j :: 0 <= j < |ps| ==> ps[j] < |parts|
    requires k <= |ps| && ApplyAll(s, parts, ps[..k], params, relative, fixErrors).Err?
    ensures ApplyAll(s, parts, ps, params, relative, fixErrors).Err?
    decreases |ps| - k
  {
    if k < |ps| {
      assert ps[..k + 1][..k] == ps[..k];
      UpdateStopsAtFirstBad(s, parts, ps, params, relative, fixErrors, k + 1);
    } else {
      assert ps[..k] == ps;
    }
  }

  /** The four-per-particle layout: absolute updates of distinct particles
      place particle ps[k] at `params[4k..4k+3]` with radius `params[4k+3]`
      and its old type. */
  lemma {:induction false} AbsoluteUpdatesPlace(s: State, parts: seq<Particle>, ps: seq<nat>, params: seq<real>,
                                                k: nat)
    requires 4 * |ps| <= |params| && forall j :: 0 <= j < |ps| ==> ps[j] < |parts|
    requires forall i, j :: 0 <= i < j < |ps| ==> ps[i] != ps[j]
    requires ApplyAll(s, parts, ps, params, false, false).Ok? && k < |ps|
    ensures ApplyAll(s, parts, ps, params, false, false).value[ps[k]]
         == Particle(PosOf(params, k), params[4 * k + 3], parts[ps[k]].typ)
  {
    var last := |ps| - 1;
    var prefix := ps[..last];
    if k == last {
      assert ps[k] !in prefix by {
        forall j | 0 <= j < |prefix| ensures prefix[j] != ps[k] {
          assert prefix[j] == ps[j];
        }
      }
      PrefixUntouched(s, parts, prefix, params, false, false, ps[k]);
    } else {
      assert prefix[k] == ps[k];
      AbsoluteUpdatesPlace(s, parts, prefix, params, k);
    }
  }

  /** A particle not in the list is left as it was. */
  lemma {:induction false} PrefixUntouched(s: State, parts: seq<Particle>, ps: seq<nat>, params: seq<real>,
                                           relative: bool, fixErrors: bool, b: nat)
    requires 4 * |ps| <= |params| && forall j :: 0 <= j < |ps| ==> ps[j] < |parts|
    requires ApplyAll(s, parts, ps, params, relative, fixErrors).Ok? && b < |parts| && b !in ps
    ensures ApplyAll(s, parts, ps, params, relative, fixErrors).value[b] == parts[b]
  {
    if |ps| > 0 {
      var last := |ps| - 1;
      assert b !in ps[..last] && b != ps[last];
      PrefixUntouched(s, parts, ps[..last], params, relative, fixErrors, b);
    }
  }
}
