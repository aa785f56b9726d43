/** The exact Levenberg-Marquardt fitter over a group of particles,
    `do_levmarq_particles`, and its driver over every group of the image,
    `do_levmarq_all_particle_groups`, with the memory-driven search for the
    group box size. */
module ParticleOpt {
  import opened Wrappers
  import opened Numeric
  import opened Tiles
  import opened States
  import opened NormalEq
  import opened Damping
  import opened Grouping
  import opened GlobalOpt
  import opened Particles
  import opened RegionSize

  // ---------------------------------------------------------------------
  // Batches of relative updates to distinct particles

  /** No particle is listed twice, as in the ascending groups of
      `separate_particles_into_groups`. */
  predicate Distinct(ps: seq<nat>)
  {
    forall i, j :: 0 <= i < j < |ps| ==> ps[i] != ps[j]
  }

  /** A particle `update_one_particle` accepts. */
  predicate Good(s: State, p: Particle)
  {
    !IsBad(p.pos, p.rad, s.shape)
  }

  /** Every listed particle is one `update_one_particle` accepts. */
  predicate ListedGood(s: State, parts: seq<Particle>, ps: seq<nat>)
  {
    forall k :: 0 <= k < |ps| && ps[k] < |parts| ==> Good(s, parts[ps[k]])
  }

  /** The particle update k of a batch asks for, taken from `parts`. */
  function Step(s: State, parts: seq<Particle>, ps: seq<nat>, params: seq<real>, relative: bool,
                fixErrors: bool, k: nat): Particle
    requires 4 * |ps| <= |params| && k < |ps| && ps[k] < |parts|
  {
    Proposed(parts[ps[k]], PosOf(params, k), params[4 * k + 3], None, relative, fixErrors, s.shape)
  }

  /** The batch would have gone through without `fix_errors`: no update
      had anything to clamp. */
  predicate Unclamped(s: State, parts: seq<Particle>, ps: seq<nat>, params: seq<real>)
    requires 4 * |ps| <= |params| && forall j :: 0 <= j < |ps| ==> ps[j] < |parts|
  {
    ApplyAll(s, parts, ps, params, true, false).Ok?
  }

  /** For distinct particles a batch is a set of independent updates: it
      succeeds exactly when every particle it asks for, each from its
      original value, is accepted. */
  lemma {:induction false} DistinctOk(s: State, parts: seq<Particle>, ps: seq<nat>, params: seq<real>,
                                      relative: bool, fixErrors: bool)
    requires 4 * |ps| <= |params| && (forall j :: 0 <= j < |ps| ==> ps[j] < |parts|) && Distinct(ps)
    ensures ApplyAll(s, parts, ps, params, relative, fixErrors).Ok?
        <==> forall k :: 0 <= k < |ps| ==> Good(s, Step(s, parts, ps, params, relative, fixErrors, k))
  {
    if |ps| > 0 {
      var m := |ps| - 1;
      var pre := ps[..m];
      DistinctOk(s, parts, pre, params, relative, fixErrors);
      forall k | 0 <= k < m
        ensures Step(s, parts, pre, params, relative, fixErrors, k) == Step(s, parts, ps, params, relative, fixErrors, k)
      {
      }
      var prev := ApplyAll(s, parts, pre, params, relative, fixErrors);
      if prev.Ok? {
        assert ps[m] !in pre;
        PrefixUntouched(s, parts, pre, params, relative, fixErrors, ps[m]);
        assert Step(s, parts, ps, params, relative, fixErrors, m)
            == Proposed(prev.value[ps[m]], PosOf(params, m), params[4 * m + 3], None, relative, fixErrors, s.shape);
      } else {
        var k :| 0 <= k < m && !Good(s, Step(s, parts, pre, params, relative, fixErrors, k));
      }
    }
  }

  /** After a successful batch over distinct particles each listed particle
      holds the value asked for it from its original value. */
  lemma {:induction false} DistinctValues(s: State, parts: seq<Particle>, ps: seq<nat>, params: seq<real>,
                                          relative: bool, fixErrors: bool)
    requires 4 * |ps| <= |params| && (forall j :: 0 <= j < |ps| ==> ps[j] < |parts|) && Distinct(ps)
    requires ApplyAll(s, parts, ps, params, relative, fixErrors).Ok?
    ensures forall k :: 0 <= k < |ps| ==>
      ApplyAll(s, parts, ps, params, relative, fixErrors).value[ps[k]] == Step(s, parts, ps, params, relative, fixErrors, k)
  {
    if |ps| > 0 {
      var m := |ps| - 1;
      var pre := ps[..m];
      var prev := ApplyAll(s, parts, pre, params, relative, fixErrors);
      assert prev.Ok?;
      var w := prev.value;
      DistinctValues(s, parts, pre, params, relative, fixErrors);
      assert ps[m] !in pre;
      PrefixUntouched(s, parts, pre, params, relative, fixErrors, ps[m]);
      var p1 := Step(s, parts, ps, params, relative, fixErrors, m);
      assert ApplyAll(s, parts, ps, params, relative, fixErrors) == Ok(w[ps[m] := p1]);
      forall k | 0 <= k < |ps|
        ensures w[ps[m] := p1][ps[k]] == Step(s, parts, ps, params, relative, fixErrors, k)
      {
        if k < m {
          assert pre[k] == ps[k] && ps[k] != ps[m];
          assert w[ps[k]] == Step(s, parts, pre, params, relative, fixErrors, k);
        }
      }
    }
  }

  /** Every particle a successful batch does not list is kept. */
  lemma Untouched(s: State, parts: seq<Particle>, ps: seq<nat>, params: seq<real>, relative: bool, fixErrors: bool)
    requires 4 * |ps| <= |params| && forall j :: 0 <= j < |ps| ==> ps[j] < |parts|
    requires ApplyAll(s, parts, ps, params, relative, fixErrors).Ok?
    ensures forall j :: 0 <= j < |parts| && j !in ps ==>
      ApplyAll(s, parts, ps, params, relative, fixErrors).value[j] == parts[j]
  {
    forall j | 0 <= j < |parts| && j !in ps
      ensures ApplyAll(s, parts, ps, params, relative, fixErrors).value[j] == parts[j]
    {
      PrefixUntouched(s, parts, ps, params, relative, fixErrors, j);
    }
  }

  /** A batch that needs no clamping comes out the same with `fix_errors`. */
  lemma {:induction false} FixUnneeded(s: State, parts: seq<Particle>, ps: seq<nat>, params: seq<real>,
                                       relative: bool)
    requires 4 * |ps| <= |params| && forall j :: 0 <= j < |ps| ==> ps[j] < |parts|
    requires ApplyAll(s, parts, ps, params, relative, false).Ok?
    ensures ApplyAll(s, parts, ps, params, relative, true) == ApplyAll(s, parts, ps, params, relative, false)
  {
    if |ps| > 0 {
      FixUnneeded(s, parts, ps[..|ps| - 1], params, relative);
    }
  }

  /** Two relative updates without clamping add up. */
  lemma ProposedCompose(p: Particle, x: Vec3, rx: real, y: Vec3, ry: real, shape: IVec3)
    ensures Proposed(Proposed(p, x, rx, None, true, false, shape), y, ry, None, true, false, shape)
         == Proposed(p, Add3(x, y), rx + ry, None, true, false, shape)
  {
    assert Add3(Add3(p.pos, x), y) == Add3(p.pos, Add3(x, y));
  }

  /** Two relative batches over the same distinct particles, neither
      clamped, are one batch with the summed steps. */
  lemma ListCompose(s: State, parts: seq<Particle>, ps: seq<nat>, x: seq<real>, y: seq<real>)
    requires |x| == 4 * |ps| && |y| == |x| && (forall j :: 0 <= j < |ps| ==> ps[j] < |parts|) && Distinct(ps)
    requires ApplyAll(s, parts, ps, x, true, false).Ok?
    ensures ApplyAll(s, ApplyAll(s, parts, ps, x, true, false).value, ps, y, true, false)
         == ApplyAll(s, parts, ps, Add(x, y), true, false)
  {
    var q := ApplyAll(s, parts, ps, x, true, false).value;
    DistinctValues(s, parts, ps, x, true, false);
    Untouched(s, parts, ps, x, true, false);
    forall k | 0 <= k < |ps|
      ensures Step(s, q, ps, y, true, false, k) == Step(s, parts, ps, Add(x, y), true, false, k)
    {
      StepCompose(s, parts, q, ps, x, y, k);
    }
    SameSteps(s, q, parts, ps, y, Add(x, y));
  }

  /** One particle of ListCompose: step k of y taken from where step k of
      x left the particle is step k of x + y. */
  lemma StepCompose(s: State, parts: seq<Particle>, q: seq<Particle>, ps: seq<nat>, x: seq<real>, y: seq<real>,
                    k: nat)
    requires |x| == 4 * |ps| && |y| == |x| && k < |ps| && ps[k] < |parts| && |q| == |parts|
    requires q[ps[k]] == Step(s, parts, ps, x, true, false, k)
    ensures Step(s, q, ps, y, true, false, k) == Step(s, parts, ps, Add(x, y), true, false, k)
  {
    ProposedCompose(parts[ps[k]], PosOf(x, k), x[4 * k + 3], PosOf(y, k), y[4 * k + 3], s.shape);
    assert PosOf(Add(x, y), k) == Add3(PosOf(x, k), PosOf(y, k));
  }

  /** Two particle lists that agree outside the batch, under batches that
      ask for the same particles, end the same. */
  lemma SameSteps(s: State, a: seq<Particle>, b: seq<Particle>, ps: seq<nat>, pa: seq<real>, pb: seq<real>)
    requires |a| == |b| && 4 * |ps| <= |pa| && 4 * |ps| <= |pb| && Distinct(ps)
    requires forall j :: 0 <= j < |ps| ==> ps[j] < |a|
    requires forall j :: 0 <= j < |a| && j !in ps ==> a[j] == b[j]
    requires forall k :: 0 <= k < |ps| ==> Step(s, a, ps, pa, true, false, k) == Step(s, b, ps, pb, true, false, k)
    ensures ApplyAll(s, a, ps, pa, true, false) == ApplyAll(s, b, ps, pb, true, false)
  {
    var ra := ApplyAll(s, a, ps, pa, true, false);
    var rb := ApplyAll(s, b, ps, pb, true, false);
    assert ra.Ok? <==> rb.Ok? by {
      DistinctOk(s, a, ps, pa, true, false);
      DistinctOk(s, b, ps, pb, true, false);
    }
    if ra.Ok? {
      DistinctValues(s, a, ps, pa, true, false);
      DistinctValues(s, b, ps, pb, true, false);
      Untouched(s, a, ps, pa, true, false);
      Untouched(s, b, ps, pb, true, false);
      forall j | 0 <= j < |a| ensures ra.value[j] == rb.value[j] {
        if j in ps {
          var k :| 0 <= k < |ps| && ps[k] == j;
        }
      }
      assert ra.value == rb.value;
    }
  }

  /** A relative batch of zero steps over accepted particles changes nothing. */
  lemma ListZero(s: State, parts: seq<Particle>, ps: seq<nat>, z: seq<real>)
    requires |z| == 4 * |ps| && (forall j :: 0 <= j < |ps| ==> ps[j] < |parts|) && Distinct(ps)
    requires (forall i :: 0 <= i < |z| ==> z[i] == 0.0) && ListedGood(s, parts, ps)
    ensures ApplyAll(s, parts, ps, z, true, false) == Ok(parts)
  {
    forall k | 0 <= k < |ps| ensures Step(s, parts, ps, z, true, false, k) == parts[ps[k]] {
      var p := parts[ps[k]];
      assert Add3(p.pos, PosOf(z, k)) == p.pos;
    }
    var r := ApplyAll(s, parts, ps, z, true, false);
    assert r.Ok? by {
      DistinctOk(s, parts, ps, z, true, false);
    }
    DistinctValues(s, parts, ps, z, true, false);
    Untouched(s, parts, ps, z, true, false);
    forall j | 0 <= j < |parts| ensures r.value[j] == parts[j] {
      if j in ps {
        var k :| 0 <= k < |ps| && ps[k] == j;
      }
    }
    assert r.value == parts;
  }

  /** The algebraic rollback: the negated batch takes distinct, accepted
      particles back to where they were, when nothing was clamped. */
  lemma ListUndo(s: State, parts: seq<Particle>, ps: seq<nat>, x: seq<real>)
    requires |x| == 4 * |ps| && (forall j :: 0 <= j < |ps| ==> ps[j] < |parts|) && Distinct(ps)
    requires ApplyAll(s, parts, ps, x, true, false).Ok? && ListedGood(s, parts, ps)
    ensures ApplyAll(s, ApplyAll(s, parts, ps, x, true, false).value, ps, Neg(x), true, false) == Ok(parts)
  {
    ListCompose(s, parts, ps, x, Neg(x));
    ListZero(s, parts, ps, Add(x, Neg(x)));
  }

  /** After a successful batch over distinct particles every listed
      particle is one `update_one_particle` accepts. */
  lemma ListedGoodAfter(s: State, parts: seq<Particle>, ps: seq<nat>, params: seq<real>, relative: bool,
                        fixErrors: bool)
    requires 4 * |ps| <= |params| && (forall j :: 0 <= j < |ps| ==> ps[j] < |parts|) && Distinct(ps)
    requires ApplyAll(s, parts, ps, params, relative, fixErrors).Ok?
    ensures ListedGood(s, ApplyAll(s, parts, ps, params, relative, fixErrors).value, ps)
  {
    DistinctOk(s, parts, ps, params, relative, fixErrors);
    DistinctValues(s, parts, ps, params, relative, fixErrors);
  }

  // ---------------------------------------------------------------------
  // What a pass may change

  /** Only the listed particles may differ between w and v: every other
      particle and every other sub-model's entry is as it was. */
  predicate OnlyMoved(w: seq<real>, v: seq<real>, n: nat, ps: seq<nat>)
  {
    |w| == |v| && 5 * n <= |v| && Others(w, n) == Others(v, n)
    && forall j :: 0 <= j < n && j !in ps ==> ParticleAt(w, n, j) == ParticleAt(v, n, j)
  }

  lemma OnlyMovedTrans(u: seq<real>, w: seq<real>, v: seq<real>, n: nat, ps: seq<nat>)
    requires OnlyMoved(u, w, n, ps) && OnlyMoved(w, v, n, ps)
    ensures OnlyMoved(u, v, n, ps)
  {
  }

  /** A successful batch moves only the particles it lists. */
  lemma BatchMovesListed(s: State, v: seq<real>, w: seq<real>, ps: seq<nat>, params: seq<real>, relative: bool,
                         fixErrors: bool)
    requires 5 * s.n <= |v| && |w| == |v| && 4 * |ps| <= |params| && forall k :: 0 <= k < |ps| ==> ps[k] < s.n
    requires ApplyAll(s, ParticlesOf(v, s.n), ps, params, relative, fixErrors) == Ok(ParticlesOf(w, s.n))
    requires Others(w, s.n) == Others(v, s.n)
    ensures OnlyMoved(w, v, s.n, ps)
  {
    Untouched(s, ParticlesOf(v, s.n), ps, params, relative, fixErrors);
    forall j | 0 <= j < s.n && j !in ps ensures ParticleAt(w, s.n, j) == ParticleAt(v, s.n, j) {
      assert ParticlesOf(w, s.n)[j] == ParticlesOf(v, s.n)[j];
    }
  }

  /** The finite differences of `eval_many_particle_grad` move only the
      particles of the group. */
  lemma {:induction false} ManyGradMoves(s: State, v: seq<real>, ps: seq<nat>, dl: real, threePt: bool,
                                         slicer: Option<Tile>, beNice: bool)
    requires s.Layout() && 5 * s.n <= |v| && dl != 0.0 && forall k :: 0 <= k < |ps| ==> ps[k] < s.n
    ensures OnlyMoved(ManyGrad(s, v, ps, dl, threePt, slicer, beNice).1, v, s.n, ps)
  {
    if |ps| > 0 {
      var m := |ps| - 1;
      var a := ps[m];
      ManyGradMoves(s, v, ps[..m], dl, threePt, slicer, beNice);
      var w := ManyGrad(s, v, ps[..m], dl, threePt, slicer, beNice).1;
      var p := Shifted(ParticleAt(w, s.n, a), EndOffset(dl, beNice, threePt));
      SetParticleAbstract(w, s.n, a, p);
      forall j | 0 <= j < s.n && j !in ps
        ensures ParticleAt(SetParticle(w, s.n, a, p), s.n, j) == ParticleAt(v, s.n, j)
      {
        assert j !in ps[..m] && j != a;
        SetParticleOthers(w, s.n, a, j, p);
      }
    }
  }

  /** With `be_nice` the finite differences of `eval_many_particle_grad`
      put every particle back where it was. */
  lemma {:induction false} NiceManyGradStays(s: State, v: seq<real>, ps: seq<nat>, dl: real, threePt: bool,
                                             slicer: Option<Tile>)
    requires s.Layout() && 5 * s.n <= |v| && dl != 0.0 && forall k :: 0 <= k < |ps| ==> ps[k] < s.n
    ensures ManyGrad(s, v, ps, dl, threePt, slicer, true).1 == v
  {
    if |ps| > 0 {
      var m := |ps| - 1;
      NiceManyGradStays(s, v, ps[..m], dl, threePt, slicer);
      var p := ParticleAt(v, s.n, ps[m]);
      assert Shifted(p, EndOffset(dl, true, threePt)) == p;
      SetParticleSame(v, s.n, ps[m]);
    }
  }

  /** A J row has one entry per masked pixel of the tile. */
  lemma AxisRowLength(s: State, v: seq<real>, a: nat, k: nat, tile: Tile, dl: real, threePt: bool)
    requires s.Layout() && a < s.n && 5 * s.n <= |v| && k < 4 && dl != 0.0
    ensures |AxisRow(s, v, a, k, tile, dl, threePt)| == s.slicedLen(tile)
  {
  }

  /** With a given slicer every row of `eval_many_particle_grad` has one
      entry per masked pixel of that tile. */
  lemma {:induction false} ManyGradRows(s: State, v: seq<real>, ps: seq<nat>, dl: real, threePt: bool, t: Tile,
                                        beNice: bool)
    requires s.Layout() && 5 * s.n <= |v| && dl != 0.0 && forall k :: 0 <= k < |ps| ==> ps[k] < s.n
    ensures Rows(ManyGrad(s, v, ps, dl, threePt, Some(t), beNice).0, s.slicedLen(t))
  {
    if |ps| > 0 {
      var m := |ps| - 1;
      var a := ps[m];
      ManyGradRows(s, v, ps[..m], dl, threePt, t, beNice);
      var front := ManyGrad(s, v, ps[..m], dl, threePt, Some(t), beNice);
      var w := front.1;
      var p := ParticleAt(w, s.n, a);
      var g := GradRows(s, w, a, t, dl, threePt, beNice);
      assert ManyGrad(s, v, ps, dl, threePt, Some(t), beNice).0 == front.0 + g;
      forall j | 0 <= j < 4
        ensures |g[j]| == s.slicedLen(t)
      {
        AxisRowLength(s, SetParticle(w, s.n, a, NudgedFirst(p, j, EndOffset(dl, beNice, threePt))), a, j, t, dl, threePt);
      }
      forall i | 0 <= i < |front.0 + g|
        ensures |(front.0 + g)[i]| == s.slicedLen(t)
      {
        if i >= |front.0| {
          assert (front.0 + g)[i] == g[i - |front.0|];
        }
      }
    }
  }

  // ---------------------------------------------------------------------
  // One pass of do_levmarq_particles

  /** Step 1 of a pass when J is due: the tile enclosing every particle of
      the group, the exact J over the group's (x, y, z, R) parameters on
      that tile, four rows per particle, and JTJ. An empty group fails in
      `np.min`. */
  method RecalcParticleJ(s: State, ps: seq<nat>, dl: real, threePt: bool, beNice: bool)
    returns (r: Result<(Tile, Matrix, Matrix)>)
    requires s.Valid() && dl != 0.0 && forall k :: 0 <= k < |ps| ==> ps[k] < s.n
    modifies s
    ensures s.Valid()
    ensures r.Err? ==> r.failure.ValueError? || r.failure.NameError?
    ensures |ps| == 0 ==> r.Err?
    ensures r.Ok? ==> OnlyMoved(s.vec, old(s.vec), s.n, ps)
    ensures r.Ok? ==>
      (var (tile, J, jtj) := r.value;
       tile == Union(StillTiles(s, old(s.vec), ps))
       && (J, s.vec) == ManyGrad(s, old(s.vec), ps, dl, threePt, Some(tile), beNice)
       && |J| == 4 * |ps| && Rows(J, s.slicedLen(tile)) && jtj == JtJ(J, s.slicedLen(tile)))
    ensures r.Ok? && beNice ==> s.vec == old(s.vec)
  {
    ghost var v := s.vec;
    var tile :- GetTileFromMultipleParticleChange(s, ps);
    var J :- EvalManyParticleGrad(s, ps, dl, threePt, Some(tile), beNice);
    ManyGradMoves(s, v, ps, dl, threePt, Some(tile), beNice);
    ManyGradRows(s, v, ps, dl, threePt, tile, beNice);
    if beNice {
      NiceManyGradStays(s, v, ps, dl, threePt, Some(tile));
    }
    return Ok((tile, J, JtJ(J, s.slicedLen(tile))));
  }

  /** The two trial steps of a pass from vStart: p0 + d0 (with
      `fix_errors`) gives v0, then the difference e = d1 - d0 (with
      `fix_errors`) gives v1. */
  ghost predicate TrialsAt(s: State, vStart: seq<real>, v0: seq<real>, v1: seq<real>, ps: seq<nat>,
                           d0: seq<real>, e: seq<real>)
  {
    5 * s.n <= |vStart| && |v0| == |vStart| && |v1| == |vStart| && |ps| > 0
    && |d0| == 4 * |ps| && |e| == |d0| && (forall k :: 0 <= k < |ps| ==> ps[k] < s.n)
    && var first := ApplyAll(s, ParticlesOf(vStart, s.n), ps, d0, true, true);
       first == Ok(ParticlesOf(v0, s.n)) && Others(v0, s.n) == Others(vStart, s.n)
       && ApplyAll(s, ParticlesOf(v0, s.n), ps, e, true, true) == Ok(ParticlesOf(v1, s.n))
       && Others(v1, s.n) == Others(vStart, s.n)
  }

  /** Step 2 of a pass: move the group by d0 and measure err0, then by
      d1 - d0 and measure err1, both with `fix_errors`. */
  method TryParticleSteps(s: State, ps: seq<nat>, d0: seq<real>, d1: seq<real>)
    returns (r: Result<(real, real)>, ghost v0: seq<real>)
    requires s.Valid() && (forall k :: 0 <= k < |ps| ==> ps[k] < s.n) && |d0| == 4 * |ps| && |d1| == |d0|
    modifies s
    ensures s.Valid()
    ensures r.Err? ==> r.failure.ValueError?
    ensures r.Ok? ==> TrialsAt(s, old(s.vec), v0, s.vec, ps, d0, Sub(d1, d0))
    ensures r.Ok? ==> OnlyMoved(s.vec, old(s.vec), s.n, ps) && r.value == (s.err(v0), s.err(s.vec))
  {
    ghost var vStart := s.vec;
    v0 := s.vec;
    var _ :- UpdateParticles(s, ps, d0, true, true);
    v0 := s.vec;
    BatchMovesListed(s, vStart, v0, ps, d0, true, true);
    var err0 := s.err(s.vec);
    var d1md0 := Sub(d1, d0);
    var _ :- UpdateParticles(s, ps, d1md0, true, true);
    BatchMovesListed(s, v0, s.vec, ps, d1md0, true, true);
    var err1 := s.err(s.vec);
    return Ok((err0, err1)), v0;
  }

  /** The error margin above which a rollback counts as not restoring the
      state, and `s.reset()` is called. */
  const RestoreTol: real := 0.001

  /** The move back of a bad pass: `-d1md0 - d0` without `fix_errors`.
      When the group started on accepted particles and neither trial step
      was clamped, this restores the start exactly. */
  method RollBackGroup(s: State, ps: seq<nat>, d0: seq<real>, e: seq<real>, ghost vStart: seq<real>,
                       ghost v0: seq<real>) returns (r: Result<()>)
    requires s.Valid() && |vStart| == s.size && TrialsAt(s, vStart, v0, s.vec, ps, d0, e)
    requires OnlyMoved(s.vec, vStart, s.n, ps)
    modifies s
    ensures s.Valid()
    ensures r.Err? ==> r.failure.ValueError?
    ensures r.Ok? ==> OnlyMoved(s.vec, vStart, s.n, ps)
    ensures r.Ok? ==>
      |s.log| == |old(s.log)| + 1 && s.log[..|old(s.log)|] == old(s.log) && s.log[|old(s.log)|].TileUpdated?
    ensures Distinct(ps) && ListedGood(s, ParticlesOf(vStart, s.n), ps)
            && Unclamped(s, ParticlesOf(vStart, s.n), ps, d0) && Unclamped(s, ParticlesOf(v0, s.n), ps, e) ==>
      r.Ok? && s.vec == vStart
  {
    ghost var v1 := s.vec;
    ghost var exact := Distinct(ps) && ListedGood(s, ParticlesOf(vStart, s.n), ps)
      && Unclamped(s, ParticlesOf(vStart, s.n), ps, d0) && Unclamped(s, ParticlesOf(v0, s.n), ps, e);
    if exact {
      RollbackRestores(s, vStart, v0, v1, ps, d0, e);
    }
    var back := UpdateParticles(s, ps, Sub(Neg(e), d0), true, false);
    if back.Err? {
      return Err(back.failure);
    }
    BatchMovesListed(s, v1, s.vec, ps, Sub(Neg(e), d0), true, false);
    OnlyMovedTrans(s.vec, v1, vStart, s.n, ps);
    if exact {
      SameParticlesAndOthers(s.vec, vStart, s.n);
    }
    return Ok(());
  }

  /** The move back of a pass that keeps d0, corrected to `-d1md0`
      without `fix_errors`: when the second step was not clamped it lands
      on the particles err0 was measured on. */
  method StepBackToD0(s: State, ps: seq<nat>, d0: seq<real>, e: seq<real>, ghost vStart: seq<real>,
                      ghost v0: seq<real>) returns (r: Result<()>)
    requires s.Valid() && |vStart| == s.size && TrialsAt(s, vStart, v0, s.vec, ps, d0, e)
    requires OnlyMoved(s.vec, vStart, s.n, ps)
    modifies s
    ensures s.Valid()
    ensures r.Err? ==> r.failure.ValueError?
    ensures r.Ok? ==> OnlyMoved(s.vec, vStart, s.n, ps)
    ensures Distinct(ps) && Unclamped(s, ParticlesOf(v0, s.n), ps, e) ==> r.Ok? && s.vec == v0
  {
    ghost var v1 := s.vec;
    ghost var exact := Distinct(ps) && Unclamped(s, ParticlesOf(v0, s.n), ps, e);
    if exact {
      ReturnsToD0(s, vStart, v0, v1, ps, d0, e);
    }
    var back := UpdateParticles(s, ps, Neg(e), true, false);
    if back.Err? {
      return Err(back.failure);
    }
    BatchMovesListed(s, v1, s.vec, ps, Neg(e), true, false);
    OnlyMovedTrans(s.vec, v1, vStart, s.n, ps);
    if exact {
      SameParticlesAndOthers(s.vec, v0, s.n);
    }
    return Ok(());
  }

  /** The bad-pass branch of step 3: the rollback, then `reset` when the
      error did not come back to within 1e-3 of the start. */
  method UndoBadPass(s: State, ps: seq<nat>, d0: seq<real>, e: seq<real>, errStart: real,
                     ghost vStart: seq<real>, ghost v0: seq<real>) returns (r: Result<()>)
    requires s.Valid() && |vStart| == s.size && TrialsAt(s, vStart, v0, s.vec, ps, d0, e)
    requires OnlyMoved(s.vec, vStart, s.n, ps)
    modifies s
    ensures s.Valid()
    ensures r.Err? ==> r.failure.ValueError?
    ensures r.Ok? ==> OnlyMoved(s.vec, vStart, s.n, ps)
    ensures Distinct(ps) && ListedGood(s, ParticlesOf(vStart, s.n), ps)
            && Unclamped(s, ParticlesOf(vStart, s.n), ps, d0) && Unclamped(s, ParticlesOf(v0, s.n), ps, e) ==>
      r.Ok? && s.vec == vStart
    ensures r.Ok? ==>
      |old(s.log)| < |s.log| && s.log[..|old(s.log)|] == old(s.log)
      && (s.log[|s.log| - 1] == ResetCalled <==> s.err(s.vec) > errStart + RestoreTol)
  {
    r := RollBackGroup(s, ps, d0, e, vStart, v0);
    if r.Ok? && s.err(s.vec) > errStart + RestoreTol {
      ghost var log1 := s.log;
      s.Reset();
      assert s.log[..|old(s.log)|] == log1[..|old(s.log)|];
    }
  }

  /** Step 3 of a pass. On a bad pass the group is moved back by
      `-d1md0 - d0` (without `fix_errors`), and the model is reset when the
      error did not come back to within 1e-3. When d0 was the better step
      the group is moved back by `-d1md0`, to p0 + d0; when d1 was, it
      stays. If nothing was clamped the moves back are exact: a bad pass
      restores the start, and a d0 pass the state err0 was measured on. */
  method SettleParticles(s: State, ps: seq<nat>, d0: seq<real>, e: seq<real>, verdict: Verdict,
                         errStart: real, ghost vStart: seq<real>, ghost v0: seq<real>) returns (r: Result<()>)
    requires s.Valid() && |vStart| == s.size && TrialsAt(s, vStart, v0, s.vec, ps, d0, e)
    requires OnlyMoved(s.vec, vStart, s.n, ps)
    modifies s
    ensures s.Valid()
    ensures r.Err? ==> r.failure.ValueError? && verdict != KeepD1
    ensures r.Ok? ==> OnlyMoved(s.vec, vStart, s.n, ps)
    ensures verdict == KeepD1 ==> r.Ok? && s.vec == old(s.vec) && s.log == old(s.log)
    ensures verdict == KeepD0 && Distinct(ps) && Unclamped(s, ParticlesOf(v0, s.n), ps, e) ==>
      r.Ok? && s.vec == v0
    ensures verdict.Bad() && Distinct(ps) && ListedGood(s, ParticlesOf(vStart, s.n), ps)
            && Unclamped(s, ParticlesOf(vStart, s.n), ps, d0) && Unclamped(s, ParticlesOf(v0, s.n), ps, e) ==>
      r.Ok? && s.vec == vStart
    ensures r.Ok? && verdict.Bad() ==>
      |old(s.log)| < |s.log| && s.log[..|old(s.log)|] == old(s.log)
      && (s.log[|s.log| - 1] == ResetCalled <==> s.err(s.vec) > errStart + RestoreTol)
  {
    if verdict.Bad() {
      r := UndoBadPass(s, ps, d0, e, errStart, vStart, v0);
    } else if verdict == KeepD0 {
      r := StepBackToD0(s, ps, d0, e, vStart, v0);
    } else {
      r := Ok(());
    }
  }

  /** The move back of a good pass, corrected to `-d1md0`: when the
      second step was not clamped, it lands exactly on the particles err0
      was measured on. */
  lemma ReturnsToD0(s: State, vStart: seq<real>, v0: seq<real>, v1: seq<real>, ps: seq<nat>, d0: seq<real>,
                    e: seq<real>)
    requires TrialsAt(s, vStart, v0, v1, ps, d0, e) && Distinct(ps)
    requires Unclamped(s, ParticlesOf(v0, s.n), ps, e)
    ensures ApplyAll(s, ParticlesOf(v1, s.n), ps, Neg(e), true, false) == Ok(ParticlesOf(v0, s.n))
  {
    ListedGoodAfter(s, ParticlesOf(vStart, s.n), ps, d0, true, true);
    FixUnneeded(s, ParticlesOf(v0, s.n), ps, e, true);
    ListUndo(s, ParticlesOf(v0, s.n), ps, e);
  }

  /** The rollback of a bad pass: when neither trial step was clamped and
      the group started on accepted particles, `-d1md0 - d0` restores the
      start exactly. */
  lemma RollbackRestores(s: State, vStart: seq<real>, v0: seq<real>, v1: seq<real>, ps: seq<nat>,
                         d0: seq<real>, e: seq<real>)
    requires TrialsAt(s, vStart, v0, v1, ps, d0, e) && Distinct(ps)
    requires ListedGood(s, ParticlesOf(vStart, s.n), ps)
    requires Unclamped(s, ParticlesOf(vStart, s.n), ps, d0) && Unclamped(s, ParticlesOf(v0, s.n), ps, e)
    ensures ApplyAll(s, ParticlesOf(v1, s.n), ps, Sub(Neg(e), d0), true, false) == Ok(ParticlesOf(vStart, s.n))
  {
    var p0, q0, q1 := ParticlesOf(vStart, s.n), ParticlesOf(v0, s.n), ParticlesOf(v1, s.n);
    assert ApplyAll(s, p0, ps, d0, true, false) == Ok(q0) by {
      FixUnneeded(s, p0, ps, d0, true);
    }
    assert ApplyAll(s, q0, ps, e, true, false) == Ok(q1) by {
      FixUnneeded(s, q0, ps, e, true);
    }
    assert ApplyAll(s, q1, ps, Sub(Neg(e), d0), true, false) == ApplyAll(s, q0, ps, Neg(d0), true, false) by {
      ListCompose(s, q0, ps, e, Sub(Neg(e), d0));
      AddUndoes(e, d0);
    }
    ListUndo(s, p0, ps, d0);
  }

  // ---------------------------------------------------------------------
  // The move back of a d0 pass as written

  /** The move back of a pass that keeps d0 as the source writes it:
      the group is moved by `+d1md0` once more (without `fix_errors`),
      taking it further from p0 + d0 instead of back to it. */
  method ReupdateAsWritten(s: State, ps: seq<nat>, e: seq<real>) returns (r: Result<()>)
    requires s.Valid() && (forall k :: 0 <= k < |ps| ==> ps[k] < s.n) && |e| == 4 * |ps|
    modifies s
    ensures s.Valid()
    ensures var again := ApplyAll(s, ParticlesOf(old(s.vec), s.n), ps, e, true, false);
      (r.Ok? <==> again.Ok? && |ps| > 0)
      && (r.Ok? ==> ParticlesOf(s.vec, s.n) == again.value && OnlyMoved(s.vec, old(s.vec), s.n, ps))
  {
    ghost var v1 := s.vec;
    var again := UpdateParticles(s, ps, e, true, false);
    if again.Err? {
      return Err(again.failure);
    }
    BatchMovesListed(s, v1, s.vec, ps, e, true, false);
    return Ok(());
  }

  /** q is p moved twice by the step of particle k in e. */
  predicate MovedTwice(p: Particle, q: Particle, e: seq<real>, k: nat)
    requires 4 * k + 4 <= |e|
  {
    q.rad == p.rad + 2.0 * e[4 * k + 3]
    && q.pos == [p.pos[0] + 2.0 * e[4 * k], p.pos[1] + 2.0 * e[4 * k + 1], p.pos[2] + 2.0 * e[4 * k + 2]]
  }

  /** As written, a d0 pass whose steps were not clamped leaves each
      particle of the group at p0 + d0 + 2 (d1 - d0), not at p0 + d0 where
      err0 was measured. */
  lemma AsWrittenOvershoots(s: State, vStart: seq<real>, v0: seq<real>, v1: seq<real>, ps: seq<nat>,
                            d0: seq<real>, e: seq<real>)
    requires TrialsAt(s, vStart, v0, v1, ps, d0, e) && Distinct(ps)
    requires Unclamped(s, ParticlesOf(v0, s.n), ps, e)
    requires ApplyAll(s, ParticlesOf(v1, s.n), ps, e, true, false).Ok?
    ensures forall k :: 0 <= k < |ps| ==>
      MovedTwice(ParticlesOf(v0, s.n)[ps[k]], ApplyAll(s, ParticlesOf(v1, s.n), ps, e, true, false).value[ps[k]], e, k)
  {
    var q0 := ParticlesOf(v0, s.n);
    AsWrittenIsDouble(s, vStart, v0, v1, ps, d0, e);
    DistinctValues(s, q0, ps, Add(e, e), true, false);
    var res := ApplyAll(s, q0, ps, Add(e, e), true, false).value;
    forall k | 0 <= k < |ps|
      ensures MovedTwice(q0[ps[k]], res[ps[k]], e, k)
    {
      DoubledStep(s, q0, ps, e, k);
    }
  }

  /** As written, the move back of an unclamped d0 pass is the batch e + e
      from p0 + d0. */
  lemma AsWrittenIsDouble(s: State, vStart: seq<real>, v0: seq<real>, v1: seq<real>, ps: seq<nat>,
                          d0: seq<real>, e: seq<real>)
    requires TrialsAt(s, vStart, v0, v1, ps, d0, e) && Distinct(ps)
    requires Unclamped(s, ParticlesOf(v0, s.n), ps, e)
    ensures ApplyAll(s, ParticlesOf(v1, s.n), ps, e, true, false)
         == ApplyAll(s, ParticlesOf(v0, s.n), ps, Add(e, e), true, false)
  {
    FixUnneeded(s, ParticlesOf(v0, s.n), ps, e, true);
    ListCompose(s, ParticlesOf(v0, s.n), ps, e, e);
  }

  /** The step of particle k under e + e is twice its step under e. */
  lemma DoubledStep(s: State, parts: seq<Particle>, ps: seq<nat>, e: seq<real>, k: nat)
    requires |e| == 4 * |ps| && k < |ps| && ps[k] < |parts|
    ensures MovedTwice(parts[ps[k]], Step(s, parts, ps, Add(e, e), true, false, k), e, k)
  {
    var ee := Add(e, e);
    assert PosOf(ee, k) == [2.0 * e[4 * k], 2.0 * e[4 * k + 1], 2.0 * e[4 * k + 2]];
  }

  /** One particle at (5, 5, 5) with radius 2 in a 10-pixel cube, d0 = 0
      and d1 one pixel along x: err0 is measured with the particle at
      x = 5, the pass keeps d0, and the source's move back leaves it at
      x = 7, while `-d1md0` returns it to x = 5. */
  lemma ReupdateExample(s: State)
    requires s.shape == [10, 10, 10]
    ensures var parts := [Particle([5.0, 5.0, 5.0], 2.0, 1.0)];
      var d0, e := [0.0, 0.0, 0.0, 0.0], [1.0, 0.0, 0.0, 0.0];
      var first := ApplyAll(s, parts, [0], d0, true, true);
      first.Ok? && first.value[0].pos[0] == 5.0
      && var second := ApplyAll(s, first.value, [0], e, true, true);
      second.Ok? && second.value[0].pos[0] == 6.0
      && var written := ApplyAll(s, second.value, [0], e, true, false);
      var corrected := ApplyAll(s, second.value, [0], Neg(e), true, false);
      written.Ok? && written.value[0].pos[0] == 7.0 && corrected == first
  {
    var parts := [Particle([5.0, 5.0, 5.0], 2.0, 1.0)];
    var d0, e := [0.0, 0.0, 0.0, 0.0], [1.0, 0.0, 0.0, 0.0];
    assert PosOf(d0, 0) == [0.0, 0.0, 0.0];
    assert PosOf(e, 0) == [1.0, 0.0, 0.0];
    assert PosOf(Neg(e), 0) == [-1.0, 0.0, 0.0];
    var p1 := Proposed(parts[0], PosOf(d0, 0), 0.0, None, true, true, s.shape);
    assert p1 == parts[0];
    var p2 := Proposed(p1, PosOf(e, 0), 0.0, None, true, true, s.shape);
    assert p2 == Particle([6.0, 5.0, 5.0], 2.0, 1.0);
    ApplyOne(s, parts, d0, true, true);
    ApplyOne(s, [p1], e, true, true);
    var p3 := Proposed(p2, PosOf(e, 0), 0.0, None, true, false, s.shape);
    assert p3.pos[0] == 7.0;
    ApplyOne(s, [p2], e, true, false);
    var p4 := Proposed(p2, PosOf(Neg(e), 0), Neg(e)[3], None, true, false, s.shape);
    assert p4 == p1;
    ApplyOne(s, [p2], Neg(e), true, false);
  }

  /** A batch of one update on a one-particle list. */
  lemma ApplyOne(s: State, parts: seq<Particle>, params: seq<real>, relative: bool, fixErrors: bool)
    requires |parts| == 1 && 4 <= |params|
    ensures var p1 := Proposed(parts[0], PosOf(params, 0), params[3], None, relative, fixErrors, s.shape);
      ApplyAll(s, parts, [0], params, relative, fixErrors)
        == if IsBad(p1.pos, p1.rad, s.shape) then Err(ValueError("Particle outside image / negative radius!"))
           else Ok([p1])
  {
    assert [0][..0] == [];
    var p1 := Proposed(parts[0], PosOf(params, 0), params[3], None, relative, fixErrors, s.shape);
    assert parts[0 := p1] == [p1];
  }

  // ---------------------------------------------------------------------
  // The inner run

  /** A step by x and its negation, both with `fix_errors`, leave a group
      of distinct, accepted particles where it was when x needs no
      clamping. */
  lemma UndoExact(s: State, parts: seq<Particle>, ps: seq<nat>, x: seq<real>)
    requires |x| == 4 * |ps| && (forall j :: 0 <= j < |ps| ==> ps[j] < |parts|) && Distinct(ps)
    requires ListedGood(s, parts, ps) && Unclamped(s, parts, ps, x)
    ensures var fwd := ApplyAll(s, parts, ps, x, true, true);
      fwd.Ok? && ApplyAll(s, fwd.value, ps, Neg(x), true, true) == Ok(parts)
  {
    FixUnneeded(s, parts, ps, x, true);
    var q := ApplyAll(s, parts, ps, x, true, false).value;
    ListUndo(s, parts, ps, x);
    FixUnneeded(s, q, ps, Neg(x), true);
  }

  /** One step of `do_internal_run` with the step dnew: move the group by
      dnew with `fix_errors`; when that raises the error, move it back by
      -dnew (again with `fix_errors`) and report that the run ends. */
  method RunStep(s: State, ps: seq<nat>, dnew: seq<real>) returns (r: Result<bool>)
    requires s.Valid() && (forall k :: 0 <= k < |ps| ==> ps[k] < s.n) && |dnew| == 4 * |ps|
    modifies s
    ensures s.Valid()
    ensures r.Err? ==> r.failure.ValueError?
    ensures r.Ok? ==> OnlyMoved(s.vec, old(s.vec), s.n, ps)
    ensures r.Ok? && Distinct(ps) ==> ListedGood(s, ParticlesOf(s.vec, s.n), ps)
    ensures r == Ok(false) ==>
      s.err(s.vec) <= old(s.err(s.vec))
      && ApplyAll(s, ParticlesOf(old(s.vec), s.n), ps, dnew, true, true) == Ok(ParticlesOf(s.vec, s.n))
    ensures r == Ok(true) && Distinct(ps) && ListedGood(s, ParticlesOf(old(s.vec), s.n), ps)
            && Unclamped(s, ParticlesOf(old(s.vec), s.n), ps, dnew) ==>
      s.vec == old(s.vec)
  {
    ghost var v := s.vec;
    var oldErr := s.err(s.vec);
    var _ :- UpdateParticles(s, ps, dnew, true, true);
    BatchMovesListed(s, v, s.vec, ps, dnew, true, true);
    if Distinct(ps) {
      ListedGoodAfter(s, ParticlesOf(v, s.n), ps, dnew, true, true);
    }
    var newErr := s.err(s.vec);
    if newErr > oldErr {
      ghost var w := s.vec;
      var _ :- UpdateParticles(s, ps, Neg(dnew), true, true);
      BatchMovesListed(s, w, s.vec, ps, Neg(dnew), true, true);
      OnlyMovedTrans(s.vec, w, v, s.n, ps);
      if Distinct(ps) {
        ListedGoodAfter(s, ParticlesOf(w, s.n), ps, Neg(dnew), true, true);
        if ListedGood(s, ParticlesOf(v, s.n), ps) && Unclamped(s, ParticlesOf(v, s.n), ps, dnew) {
          UndoExact(s, ParticlesOf(v, s.n), ps, dnew);
          SameParticlesAndOthers(s.vec, v, s.n);
        }
      }
      return Ok(true);
    }
    return Ok(false);
  }

  /** The LM step from the parameters v with J, JTJ and the tile fixed:
      `find_LM_updates` for the gradient `np.dot(J, residual)` at v. */
  function LMStep(s: State, v: seq<real>, J: Matrix, jtj: Matrix, tile: Tile, damp: real, lstsq: Solver)
    : (d: seq<real>)
    requires s.Layout() && Rows(J, s.slicedLen(tile)) && Square(jtj) && SolverShape(lstsq)
    ensures |d| == |J|
  {
    FindLMUpdates(jtj, MatVec(J, s.sliced(v, tile)), damp, lstsq)
  }

  /** The run went through the parameter vectors `visited`, in order:
      each step is the LM step at one of them, with `fix_errors`, and
      leads to the next. */
  ghost predicate RunChain(s: State, ps: seq<nat>, J: Matrix, jtj: Matrix, tile: Tile, damp: real, lstsq: Solver,
                           visited: seq<seq<real>>)
    requires s.Layout() && Rows(J, s.slicedLen(tile)) && Square(jtj) && SolverShape(lstsq)
    requires |J| == 4 * |ps| && forall k :: 0 <= k < |ps| ==> ps[k] < s.n
  {
    (forall i :: 0 <= i < |visited| ==> |visited[i]| == s.size)
    && forall i :: 0 <= i < |visited| - 1 ==>
      ApplyAll(s, ParticlesOf(visited[i], s.n), ps, LMStep(s, visited[i], J, jtj, tile, damp, lstsq), true, true)
      == Ok(ParticlesOf(visited[i + 1], s.n))
  }

  /** No step of the run from the vectors `visited` needed clamping. */
  ghost predicate RunUnclamped(s: State, ps: seq<nat>, J: Matrix, jtj: Matrix, tile: Tile, damp: real,
                               lstsq: Solver, visited: seq<seq<real>>)
    requires s.Layout() && Rows(J, s.slicedLen(tile)) && Square(jtj) && SolverShape(lstsq)
    requires |J| == 4 * |ps| && forall k :: 0 <= k < |ps| ==> ps[k] < s.n
    requires forall i :: 0 <= i < |visited| ==> |visited[i]| == s.size
  {
    forall i :: 0 <= i < |visited| ==>
      Unclamped(s, ParticlesOf(visited[i], s.n), ps, LMStep(s, visited[i], J, jtj, tile, damp, lstsq))
  }

  /** `do_internal_run`: up to `run_length` further steps with the same J,
      JTJ and tile, each from the gradient at the current particles; the
      first step that raises the error is undone and ends the run. While
      no step is clamped (`exact`) the error never ends above where it
      began. The steps were taken from the vectors `visited`, and `exact`
      holds exactly when the group is distinct and accepted at the start
      and none of those steps needed clamping. */
  method ParticleRun(s: State, ps: seq<nat>, J: Matrix, jtj: Matrix, tile: Tile, damp: real, runLength: int,
                     lstsq: Solver) returns (r: Result<()>, ghost exact: bool, ghost visited: seq<seq<real>>)
    requires s.Valid() && (forall k :: 0 <= k < |ps| ==> ps[k] < s.n)
    requires |J| == 4 * |ps| && Rows(J, s.slicedLen(tile)) && Square(jtj) && |jtj| == |J| && SolverShape(lstsq)
    modifies s
    ensures s.Valid()
    ensures r.Err? ==> r.failure.ValueError?
    ensures r.Ok? ==> OnlyMoved(s.vec, old(s.vec), s.n, ps)
    ensures |visited| <= (if runLength > 0 then runLength else 0)
    ensures r.Ok? && runLength > 0 ==> |visited| > 0
    ensures |visited| > 0 ==> visited[0] == old(s.vec)
    ensures RunChain(s, ps, J, jtj, tile, damp, lstsq, visited)
    ensures exact <==> Distinct(ps) && ListedGood(s, ParticlesOf(old(s.vec), s.n), ps)
                       && RunUnclamped(s, ps, J, jtj, tile, damp, lstsq, visited)
    ensures r.Ok? && exact ==> s.err(s.vec) <= old(s.err(s.vec))
  {
    ghost var v := s.vec;
    exact := Distinct(ps) && ListedGood(s, ParticlesOf(s.vec, s.n), ps);
    visited := [];
    var rn := 0;
    while rn < runLength
      invariant s.Valid() && OnlyMoved(s.vec, v, s.n, ps)
      invariant |visited| == rn && (rn > 0 ==> rn <= runLength && visited[0] == v)
      invariant RunChain(s, ps, J, jtj, tile, damp, lstsq, visited)
      invariant rn == 0 ==> s.vec == v
      invariant rn > 0 ==> ApplyAll(s, ParticlesOf(visited[rn - 1], s.n), ps,
                                    LMStep(s, visited[rn - 1], J, jtj, tile, damp, lstsq), true, true)
                           == Ok(ParticlesOf(s.vec, s.n))
      invariant exact <==> Distinct(ps) && ListedGood(s, ParticlesOf(v, s.n), ps)
                           && RunUnclamped(s, ps, J, jtj, tile, damp, lstsq, visited)
      invariant exact ==> ListedGood(s, ParticlesOf(s.vec, s.n), ps) && s.err(s.vec) <= s.err(v)
      decreases runLength - rn
    {
      var newGrad := MatVec(J, s.sliced(s.vec, tile));
      var dnew := FindLMUpdates(jtj, newGrad, damp, lstsq);
      ghost var w := s.vec;
      assert dnew == LMStep(s, w, J, jtj, tile, damp, lstsq);
      RunGrows(s, ps, J, jtj, tile, damp, lstsq, visited, w);
      exact := exact && Unclamped(s, ParticlesOf(s.vec, s.n), ps, dnew);
      visited := visited + [w];
      var broke := RunStep(s, ps, dnew);
      if broke.Err? {
        return Err(broke.failure), exact, visited;
      }
      OnlyMovedTrans(s.vec, w, v, s.n, ps);
      if broke.value {
        break;
      }
      rn := rn + 1;
    }
    return Ok(()), exact, visited;
  }

  /** Appending the vector the next step starts from extends the chain
      and the unclamped run by that step. */
  lemma RunGrows(s: State, ps: seq<nat>, J: Matrix, jtj: Matrix, tile: Tile, damp: real, lstsq: Solver,
                 visited: seq<seq<real>>, w: seq<real>)
    requires s.Layout() && Rows(J, s.slicedLen(tile)) && Square(jtj) && SolverShape(lstsq)
    requires |J| == 4 * |ps| && (forall k :: 0 <= k < |ps| ==> ps[k] < s.n) && |w| == s.size
    requires RunChain(s, ps, J, jtj, tile, damp, lstsq, visited)
    requires |visited| > 0 ==> ApplyAll(s, ParticlesOf(visited[|visited| - 1], s.n), ps,
                                        LMStep(s, visited[|visited| - 1], J, jtj, tile, damp, lstsq), true, true)
                               == Ok(ParticlesOf(w, s.n))
    ensures RunChain(s, ps, J, jtj, tile, damp, lstsq, visited + [w])
    ensures RunUnclamped(s, ps, J, jtj, tile, damp, lstsq, visited + [w]) <==>
      RunUnclamped(s, ps, J, jtj, tile, damp, lstsq, visited)
      && Unclamped(s, ParticlesOf(w, s.n), ps, LMStep(s, w, J, jtj, tile, damp, lstsq))
  {
    var u := visited + [w];
    forall i | 0 <= i < |u| - 1
      ensures ApplyAll(s, ParticlesOf(u[i], s.n), ps, LMStep(s, u[i], J, jtj, tile, damp, lstsq), true, true)
              == Ok(ParticlesOf(u[i + 1], s.n))
    {
      if i < |visited| - 1 {
        assert u[i] == visited[i] && u[i + 1] == visited[i + 1];
      } else {
        assert u[i] == visited[|visited| - 1] && u[i + 1] == w;
      }
    }
    if RunUnclamped(s, ps, J, jtj, tile, damp, lstsq, visited)
       && Unclamped(s, ParticlesOf(w, s.n), ps, LMStep(s, w, J, jtj, tile, damp, lstsq)) {
      forall i | 0 <= i < |u|
        ensures Unclamped(s, ParticlesOf(u[i], s.n), ps, LMStep(s, u[i], J, jtj, tile, damp, lstsq))
      {
        if i < |visited| {
          assert u[i] == visited[i];
        }
      }
    }
    if RunUnclamped(s, ps, J, jtj, tile, damp, lstsq, u) {
      forall i | 0 <= i < |visited|
        ensures Unclamped(s, ParticlesOf(visited[i], s.n), ps, LMStep(s, visited[i], J, jtj, tile, damp, lstsq))
      {
        assert u[i] == visited[i];
      }
      assert u[|visited|] == w;
    }
  }

  // ---------------------------------------------------------------------
  // do_levmarq_particles

  /** Neither trial step of a pass from v needs clamping, and the group
      is distinct and accepted at v: the condition under which the
      rollback and the move back of the pass are exact. */
  ghost predicate PassUnclamped(s: State, v: seq<real>, ps: seq<nat>, d0: seq<real>, d1: seq<real>)
    requires 5 * s.n <= |v| && (forall k :: 0 <= k < |ps| ==> ps[k] < s.n) && |d0| == 4 * |ps| && |d1| == |d0|
  {
    Distinct(ps) && ListedGood(s, ParticlesOf(v, s.n), ps) && Unclamped(s, ParticlesOf(v, s.n), ps, d0)
    && var first := ApplyAll(s, ParticlesOf(v, s.n), ps, d0, true, true);
       first.Ok? && Unclamped(s, first.value, ps, Sub(d1, d0))
  }

  /** Steps 2 to 4 of a pass, with J, JTJ and the tile in hand: the
      gradient at the current particles, the two trial steps, the verdict
      on them, and the move back it calls for. A pass whose verdict would
      invert a zero `ddamp` fails as Python's division does. */
  method ParticlePass(s: State, ps: seq<nat>, d: Damping, J: Matrix, jtj: Matrix, tile: Tile, errStart: real,
                      lstsq: Solver) returns (r: Result<Verdict>, ghost exact: bool)
    requires s.Valid() && (forall k :: 0 <= k < |ps| ==> ps[k] < s.n) && SolverShape(lstsq)
    requires |J| == 4 * |ps| && Rows(J, s.slicedLen(tile)) && Square(jtj) && |jtj| == |J|
    modifies s
    ensures s.Valid()
    ensures r.Err? ==> r.failure.ValueError? || r.failure.ArithmeticError?
    ensures r.Ok? ==> OnlyMoved(s.vec, old(s.vec), s.n, ps) && (r.value == BadInvert ==> d.ddamp != 0.0)
    ensures exact ==> Distinct(ps) && ListedGood(s, ParticlesOf(old(s.vec), s.n), ps)
    ensures r.Ok? ==> (exact <==> PassUnclamped(s, old(s.vec), ps, LMStep(s, old(s.vec), J, jtj, tile, d.damp, lstsq),
                                                LMStep(s, old(s.vec), J, jtj, tile, d.damp * d.ddamp, lstsq)))
    ensures r.Ok? && exact && errStart == old(s.err(s.vec)) ==> s.err(s.vec) <= errStart
  {
    exact := false;
    ghost var vJ := s.vec;
    var grad := MatVec(J, s.sliced(s.vec, tile));
    var d0 := FindLMUpdates(jtj, grad, d.damp, lstsq);
    var d1 := FindLMUpdates(jtj, grad, d.damp * d.ddamp, lstsq);
    assert d0 == LMStep(s, vJ, J, jtj, tile, d.damp, lstsq);
    assert d1 == LMStep(s, vJ, J, jtj, tile, d.damp * d.ddamp, lstsq);
    var tried, v0 := TryParticleSteps(s, ps, d0, d1);
    if tried.Err? {
      return Err(tried.failure), exact;
    }
    var (err0, err1) := tried.value;
    var verdict := Judge(errStart, err0, err1);
    exact := Distinct(ps) && ListedGood(s, ParticlesOf(vJ, s.n), ps)
      && Unclamped(s, ParticlesOf(vJ, s.n), ps, d0) && Unclamped(s, ParticlesOf(v0, s.n), ps, Sub(d1, d0));
    var settled := SettleParticles(s, ps, d0, Sub(d1, d0), verdict, errStart, vJ, v0);
    if settled.Err? {
      return Err(settled.failure), exact;
    }
    KeptIsBest(errStart, err0, err1);
    if verdict == BadInvert && d.ddamp == 0.0 {
      return Err(ArithmeticError("float division by zero")), exact;
    }
    return Ok(verdict), exact;
  }

  /** `do_levmarq_particles`: Levenberg-Marquardt on the positions and
      radii of the particles `ps`, with the exact J over the tile that
      encloses them. Each pass tries the steps for `damp` and
      `damp * ddamp` and keeps the better one if it improves on the
      error at the start of the pass; otherwise it moves the group back,
      resets the model when the error did not come back, and retries with
      the old J and a new damping. Only the listed particles ever move.
      While no step is clamped (`exact`) and J is drawn with `be_nice`,
      the error never ends above where it began. */
  method DoLevmarqParticles(s: State, ps: seq<nat>, damp: real, ddamp: real, numIter: int, doRun: bool,
                            runLength: int, dl: real, threePt: bool, beNice: bool, lstsq: Solver)
    returns (r: Result<()>, ghost exact: bool)
    requires s.Valid() && dl != 0.0 && (forall k :: 0 <= k < |ps| ==> ps[k] < s.n) && SolverShape(lstsq)
    modifies s
    ensures s.Valid()
    ensures r.Err? ==> r.failure.ValueError? || r.failure.NameError? || r.failure.ArithmeticError?
    ensures r.Ok? ==> OnlyMoved(s.vec, old(s.vec), s.n, ps)
    ensures numIter <= 0 ==> r.Ok? && s.vec == old(s.vec)
    ensures |ps| == 0 && numIter > 0 ==> r.Err?
    ensures exact ==> Distinct(ps) && ListedGood(s, ParticlesOf(old(s.vec), s.n), ps)
    ensures r.Ok? && exact && beNice ==> s.err(s.vec) <= old(s.err(s.vec))
  {
    ghost var orig := s.vec;
    exact := Distinct(ps) && ListedGood(s, ParticlesOf(s.vec, s.n), ps);
    var d := Damping(damp, ddamp, 0, true);
    var tile: Tile := Tile([None, None, None], [None, None, None]);
    var J: Matrix := [];
    var jtj: Matrix := [];
    while Running(d, numIter)
      invariant s.Valid() && OnlyMoved(s.vec, orig, s.n, ps)
      invariant numIter <= 0 ==> s.vec == orig
      invariant d.tenths == 0 ==> d.recalcJ
      invariant |ps| == 0 ==> d.tenths == 0
      invariant !d.recalcJ ==> |J| == 4 * |ps| && Rows(J, s.slicedLen(tile)) && Square(jtj) && |jtj| == |J|
      invariant exact ==> Distinct(ps) && ListedGood(s, ParticlesOf(orig, s.n), ps)
      invariant exact && beNice ==> s.err(s.vec) <= s.err(orig)
      decreases Budget(d, numIter)
    {
      ghost var w := s.vec;
      var it, itExact := ParticleIteration(s, ps, d, tile, J, jtj, doRun, runLength, dl, threePt, beNice, lstsq);
      if it.Err? {
        return Err(it.failure), exact;
      }
      var verdict := it.value.0;
      tile, J, jtj := it.value.1, it.value.2, it.value.3;
      exact := exact && itExact;
      OnlyMovedTrans(s.vec, w, orig, s.n, ps);
      NextSpendsBudget(d, verdict, numIter);
      d := Next(d, verdict);
    }
    return Ok(()), exact;
  }

  /** One pass of the loop of `do_levmarq_particles`: `err_start`, then
      J, JTJ and the tile when due, the pass, and after a good pass the
      run with the new damping. It returns the verdict and the J in use.
      While no step is clamped and J is drawn with `be_nice`, the error
      does not end above `err_start`. */
  method ParticleIteration(s: State, ps: seq<nat>, d: Damping, tile: Tile, J: Matrix, jtj: Matrix, doRun: bool,
                           runLength: int, dl: real, threePt: bool, beNice: bool, lstsq: Solver)
    returns (r: Result<(Verdict, Tile, Matrix, Matrix)>, ghost exact: bool)
    requires s.Valid() && dl != 0.0 && (forall k :: 0 <= k < |ps| ==> ps[k] < s.n) && SolverShape(lstsq)
    requires !d.recalcJ ==> |J| == 4 * |ps| && Rows(J, s.slicedLen(tile)) && Square(jtj) && |jtj| == |J|
    modifies s
    ensures s.Valid()
    ensures r.Err? ==> r.failure.ValueError? || r.failure.NameError? || r.failure.ArithmeticError?
    ensures |ps| == 0 && d.recalcJ ==> r.Err?
    ensures r.Ok? ==> OnlyMoved(s.vec, old(s.vec), s.n, ps) && (r.value.0 == BadInvert ==> d.ddamp != 0.0)
    ensures r.Ok? ==> var (_, tile', J', jtj') := r.value;
      |J'| == 4 * |ps| && Rows(J', s.slicedLen(tile')) && Square(jtj') && |jtj'| == |J'|
    ensures exact ==> Distinct(ps) && ListedGood(s, ParticlesOf(old(s.vec), s.n), ps)
    ensures r.Ok? && exact && beNice ==> s.err(s.vec) <= old(s.err(s.vec))
  {
    exact := false;
    ghost var v := s.vec;
    var errStart := s.err(s.vec);
    var tile', J', jtj' := tile, J, jtj;
    if d.recalcJ {
      var redo := RecalcParticleJ(s, ps, dl, threePt, beNice);
      if redo.Err? {
        return Err(redo.failure), exact;
      }
      tile', J', jtj' := redo.value.0, redo.value.1, redo.value.2;
    }
    ghost var vJ := s.vec;
    var pass, passExact := ParticlePass(s, ps, d, J', jtj', tile', errStart, lstsq);
    if pass.Err? {
      return Err(pass.failure), exact;
    }
    var verdict := pass.value;
    exact := Distinct(ps) && ListedGood(s, ParticlesOf(v, s.n), ps) && passExact;
    OnlyMovedTrans(s.vec, vJ, v, s.n, ps);
    if !verdict.Bad() && doRun {
      ghost var vRun := s.vec;
      var ran, runExact, _ := ParticleRun(s, ps, J', jtj', tile', Next(d, verdict).damp, runLength, lstsq);
      if ran.Err? {
        return Err(ran.failure), exact;
      }
      exact := exact && runExact;
      OnlyMovedTrans(s.vec, vRun, v, s.n, ps);
    }
    return Ok((verdict, tile', J', jtj')), exact;
  }

  // ---------------------------------------------------------------------
  // do_levmarq_all_particle_groups

  /** The particle positions `s.obj.pos`. */
  function Positions(parts: seq<Particle>): seq<Vec3>
  {
    seq(|parts|, j requires 0 <= j < |parts| => parts[j].pos)
  }

  /** The groups one after the other. */
  function Concat(gs: seq<seq<nat>>): seq<nat>
  {
    if |gs| == 0 then [] else Concat(gs[..|gs| - 1]) + gs[|gs| - 1]
  }

  /** A particle that no group lists is not in the concatenation. */
  lemma {:induction false} NotListed(gs: seq<seq<nat>>, j: nat)
    requires CountContaining(gs, j) == 0
    ensures j !in Concat(gs)
  {
    if |gs| > 0 {
      NotListed(gs[..|gs| - 1], j);
    }
  }

  /** Moves of one group after the moves of those before it. */
  lemma OnlyMovedJoin(u: seq<real>, w: seq<real>, v: seq<real>, n: nat, ps: seq<nat>, qs: seq<nat>)
    requires OnlyMoved(w, v, n, ps) && OnlyMoved(u, w, n, qs)
    ensures OnlyMoved(u, v, n, ps + qs)
  {
  }

  /** Every index in the grouping of `pos` is a particle index. */
  lemma GroupsIndexParticles(pos: seq<Vec3>, lo: IVec3, hi: IVec3, rs: IVec3, g: nat)
    requires rs[0] != 0 && rs[1] != 0 && rs[2] != 0 && g < |GroupsSpec(pos, lo, hi, rs)|
    ensures forall k :: 0 <= k < |GroupsSpec(pos, lo, hi, rs)[g]| ==> GroupsSpec(pos, lo, hi, rs)[g][k] < |pos|
  {
    GroupsWellFormed(pos, Boxes(Starts(lo, hi, rs, 0), Starts(lo, hi, rs, 1), Starts(lo, hi, rs, 2), rs), g);
  }

  /** A particle whose position is at or below the lower bound on some
      axis is in no group, so `do_levmarq_all_particle_groups` never moves
      it. */
  lemma OutsideBoundsNotGrouped(pos: seq<Vec3>, lo: IVec3, hi: IVec3, rs: IVec3, j: nat)
    requires rs[0] > 0 && rs[1] > 0 && rs[2] > 0 && j < |pos|
    requires exists i :: 0 <= i < 3 && pos[j][i] <= lo[i] as real
    ensures j !in Concat(GroupsSpec(pos, lo, hi, rs))
  {
    GroupsPartition(pos, lo, hi, rs, j);
    NotListed(GroupsSpec(pos, lo, hi, rs), j);
  }

  /** The grouping of the particles of v by boxes of size rs. */
  function GroupingOf(v: seq<real>, n: nat, bounds: Option<(IVec3, IVec3)>, shape: IVec3, rs: IVec3)
    : seq<seq<nat>>
    requires 5 * n <= |v| && rs[0] != 0 && rs[1] != 0 && rs[2] != 0
  {
    GroupsSpec(Positions(ParticlesOf(v, n)), GridBounds(bounds, shape).0, GridBounds(bounds, shape).1, rs)
  }

  /** The memory search over the particles of v, from the box size rs0. */
  function SearchOf(v: seq<real>, n: nat, bounds: Option<(IVec3, IVec3)>, shape: IVec3, pad: int, rs0: IVec3,
                    maxMem: real): Result<IVec3>
    requires 5 * n <= |v|
  {
    RegionSearch(MemOf(Positions(ParticlesOf(v, n)), bounds, shape, pad), rs0, shape, maxMem)
  }

  /** The box size for the grouping: `region_size`, or with
      `calc_region_size` the size the memory search settles on. */
  method ChooseRegionSize(s: State, regionSize: IVec3, calcRegionSize: bool, maxMem: real,
                          bounds: Option<(IVec3, IVec3)>) returns (r: Result<IVec3>)
    requires s.Valid()
    ensures !calcRegionSize ==> r == Ok(regionSize)
    ensures calcRegionSize ==> r == SearchOf(s.vec, s.n, bounds, s.shape, s.pad, regionSize, maxMem)
  {
    if calcRegionSize {
      r := FindRegionSize(Positions(ParticlesOf(s.vec, s.n)), regionSize, bounds, s.shape, s.pad, maxMem);
    } else {
      r := Ok(regionSize);
    }
  }

  /** The loop of `do_levmarq_all_particle_groups`: `do_levmarq_particles`
      on each group in turn, then `reset`. */
  method RunGroups(s: State, groups: seq<seq<nat>>, damp: real, ddamp: real, numIter: int, doRun: bool,
                   runLength: int, dl: real, threePt: bool, beNice: bool, lstsq: Solver)
    returns (r: Result<()>, ghost exact: bool)
    requires s.Valid() && dl != 0.0 && SolverShape(lstsq)
    requires forall g, k :: 0 <= g < |groups| && 0 <= k < |groups[g]| ==> groups[g][k] < s.n
    modifies s
    ensures s.Valid()
    ensures r.Ok? ==> OnlyMoved(s.vec, old(s.vec), s.n, Concat(groups))
    ensures r.Ok? && |groups| > 0 ==> |s.log| > 0 && s.log[|s.log| - 1] == ResetCalled
    ensures exact ==> forall g :: 0 <= g < |groups| ==> Distinct(groups[g])
    ensures r.Ok? && exact && beNice ==> s.err(s.vec) <= old(s.err(s.vec))
  {
    ghost var orig := s.vec;
    exact := true;
    for g := 0 to |groups|
      invariant s.Valid() && OnlyMoved(s.vec, orig, s.n, Concat(groups[..g]))
      invariant g > 0 ==> |s.log| > 0 && s.log[|s.log| - 1] == ResetCalled
      invariant exact ==> forall h :: 0 <= h < g ==> Distinct(groups[h])
      invariant exact && beNice ==> s.err(s.vec) <= s.err(orig)
    {
      ghost var w := s.vec;
      var done, groupExact := DoLevmarqParticles(s, groups[g], damp, ddamp, numIter, doRun, runLength, dl,
                                                 threePt, beNice, lstsq);
      if done.Err? {
        return Err(done.failure), false;
      }
      exact := exact && groupExact;
      s.Reset();
      ConcatPrefix(groups, g);
      OnlyMovedJoin(s.vec, w, orig, s.n, Concat(groups[..g]), groups[g]);
    }
    assert groups[..|groups|] == groups;
    return Ok(()), exact;
  }

  lemma ConcatPrefix(gs: seq<seq<nat>>, g: nat)
    requires g < |gs|
    ensures Concat(gs[..g + 1]) == Concat(gs[..g]) + gs[g]
  {
    assert gs[..g + 1][..g] == gs[..g];
  }

  /** Every index of a grouping is a particle index. */
  lemma GroupingIndexesParticles(v: seq<real>, n: nat, bounds: Option<(IVec3, IVec3)>, shape: IVec3, rs: IVec3)
    requires 5 * n <= |v| && rs[0] != 0 && rs[1] != 0 && rs[2] != 0
    ensures var gs := GroupingOf(v, n, bounds, shape, rs);
      forall g, k :: 0 <= g < |gs| && 0 <= k < |gs[g]| ==> gs[g][k] < n
  {
    var pos := Positions(ParticlesOf(v, n));
    var lo, hi := GridBounds(bounds, shape).0, GridBounds(bounds, shape).1;
    forall g | 0 <= g < |GroupsSpec(pos, lo, hi, rs)|
      ensures forall k :: 0 <= k < |GroupsSpec(pos, lo, hi, rs)[g]| ==> GroupsSpec(pos, lo, hi, rs)[g][k] < n
    {
      GroupsIndexParticles(pos, lo, hi, rs, g);
    }
  }

  /** `do_levmarq_all_particle_groups`: groups the particles by boxes of
      the chosen size and runs `do_levmarq_particles` on each group in
      turn, resetting the model after each. Only grouped particles move,
      and the grouping is that of the positions at the start. */
  method DoLevmarqAllParticleGroups(s: State, regionSize: IVec3, calcRegionSize: bool, maxMem: real,
                                    bounds: Option<(IVec3, IVec3)>, damp: real, ddamp: real, numIter: int,
                                    doRun: bool, runLength: int, dl: real, threePt: bool, beNice: bool,
                                    lstsq: Solver)
    returns (r: Result<()>, ghost rs: IVec3, ghost groups: seq<seq<nat>>, ghost exact: bool)
    requires s.Valid() && dl != 0.0 && SolverShape(lstsq)
    modifies s
    ensures s.Valid()
    ensures r.Ok? ==>
      rs[0] != 0 && rs[1] != 0 && rs[2] != 0 && groups == GroupingOf(old(s.vec), s.n, bounds, s.shape, rs)
    ensures r.Ok? && !calcRegionSize ==> rs == regionSize
    ensures r.Ok? && calcRegionSize ==> Ok(rs) == SearchOf(old(s.vec), s.n, bounds, s.shape, s.pad, regionSize, maxMem)
    ensures r.Ok? ==> OnlyMoved(s.vec, old(s.vec), s.n, Concat(groups))
    ensures r.Ok? && |groups| > 0 ==> |s.log| > 0 && s.log[|s.log| - 1] == ResetCalled
    ensures r.Ok? && exact && beNice ==> s.err(s.vec) <= old(s.err(s.vec))
  {
    var pos := Positions(ParticlesOf(s.vec, s.n));
    groups := [];
    rs := regionSize;
    exact := false;
    var chosen := ChooseRegionSize(s, regionSize, calcRegionSize, maxMem, bounds);
    if chosen.Err? {
      return Err(chosen.failure), rs, groups, exact;
    }
    var size := chosen.value;
    rs := size;
    var grouped := SeparateParticlesIntoGroups(pos, size, bounds, s.shape);
    if grouped.Err? {
      return Err(grouped.failure), rs, groups, exact;
    }
    var particleGroups := grouped.value;
    groups := particleGroups;
    GroupingIndexesParticles(s.vec, s.n, bounds, s.shape, size);
    assert particleGroups == GroupingOf(s.vec, s.n, bounds, s.shape, size);
    var done;
    done, exact := RunGroups(s, particleGroups, damp, ddamp, numIter, doRun, runLength, dl, threePt, beNice, lstsq);
    if done.Err? {
      return Err(done.failure), rs, groups, exact;
    }
    return Ok(()), rs, groups, exact;
  }
}
