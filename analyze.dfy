/** Post-fit analysis of particle configurations (`cbamf/test/analyze.py`):
    the good-particle and in-box masks, nearest-neighbour matching, the pair
    separations behind g(r), the particle count of the packing fraction and
    the regrouping of sampled parameter vectors into positions and radii.
    Square roots are an oracle parameter `root`; floating point is modelled
    by exact reals. */
module Analyze {
  import opened Wrappers
  import opened Numeric
  import opened Masks

  /** What these helpers read from a fitted state: the particle arrays
      `state.obj.pos`, `state.obj.rad`, `state.obj.typ`, the padding
      `state.pad` and `state.image.shape`. */
  datatype Snapshot = Snapshot(pos: seq<Vec3>, rad: seq<real>, typ: seq<real>, pad: int, shape: IVec3)
  {
    predicate Consistent()
    {
      |rad| == |pos| && |typ| == |pos|
    }
  }

  type Row3 = b: seq<bool> | |b| == 3 witness [false, false, false]

  // ---------------------------------------------------------------------------
  // Box masks
  // ---------------------------------------------------------------------------

  /** `p + sign * rad[:, None]`, or p itself when no radii are given. */
  function Shifted(p: seq<Vec3>, rad: Option<seq<real>>, sign: real): (q: seq<Vec3>)
    requires rad.Some? ==> |rad.value| == |p|
    ensures |q| == |p|
  {
    if rad.None? then p
    else seq(|p|, i requires 0 <= i < |p| =>
           seq(3, a requires 0 <= a < 3 => p[i][a] + sign * rad.value[i]))
  }

  /** The elementwise comparison `q > c`. */
  function Above(q: seq<Vec3>, c: real): (m: seq<Row3>)
    ensures |m| == |q|
  {
    seq(|q|, i requires 0 <= i < |q| => seq(3, a requires 0 <= a < 3 => q[i][a] > c))
  }

  /** The elementwise comparison `q < np.array(shape) - pad`. */
  function BelowEdge(q: seq<Vec3>, shape: IVec3, pad: int): (m: seq<Row3>)
    ensures |m| == |q|
  {
    seq(|q|, i requires 0 <= i < |q| => seq(3, a requires 0 <= a < 3 => q[i][a] < (shape[a] - pad) as real))
  }

  /** `(m1 & m2).all(axis=-1)`. */
  function AllBoth(m1: seq<Row3>, m2: seq<Row3>): (m: seq<bool>)
    requires |m1| == |m2|
    ensures |m| == |m1|
  {
    seq(|m1|, i requires 0 <= i < |m1| => m1[i][0] && m2[i][0] && m1[i][1] && m2[i][1] && m1[i][2] && m2[i][2])
  }

  /** `trim_box`: with no radii, the centres strictly inside the padded
      image on every axis; with radii, the particles whose extent reaches
      into it. */
  function TrimBox(pad: int, shape: IVec3, p: seq<Vec3>, rad: Option<seq<real>>): (m: seq<bool>)
    requires rad.Some? ==> |rad.value| == |p|
    ensures |m| == |p|
    ensures rad.None? ==> forall i :: 0 <= i < |p| ==>
      (m[i] <==> forall a :: 0 <= a < 3 ==> pad as real < p[i][a] < (shape[a] - pad) as real)
    ensures rad.Some? ==> forall i :: 0 <= i < |p| ==>
      (m[i] <==> forall a :: 0 <= a < 3 ==>
         p[i][a] + rad.value[i] > pad as real && p[i][a] - rad.value[i] < (shape[a] - pad) as real)
  {
    var m := AllBoth(Above(Shifted(p, rad, 1.0), pad as real), BelowEdge(Shifted(p, rad, -1.0), shape, pad));
    assert forall i :: 0 <= i < |p| ==> (m[i] <==> forall a :: 0 <= a < 3 ==>
      Shifted(p, rad, 1.0)[i][a] > pad as real && Shifted(p, rad, -1.0)[i][a] < (shape[a] - pad) as real);
    m
  }

  /** A particle of non-negative radius whose centre lies in the padded image
      overlaps it: the radius test accepts everything the centre test does. */
  lemma RadiusTestWidens(pad: int, shape: IVec3, p: seq<Vec3>, rad: seq<real>, i: nat)
    requires |rad| == |p| && i < |p| && rad[i] >= 0.0
    requires TrimBox(pad, shape, p, None)[i]
    ensures TrimBox(pad, shape, p, Some(rad))[i]
  {
    assert forall a :: 0 <= a < 3 ==> pad as real < p[i][a] < (shape[a] - pad) as real;
  }

  /** With every radius zero the two box tests agree. */
  lemma ZeroRadiusIsCentreTest(pad: int, shape: IVec3, p: seq<Vec3>, rad: seq<real>)
    requires |rad| == |p| && forall i :: 0 <= i < |rad| ==> rad[i] == 0.0
    ensures TrimBox(pad, shape, p, Some(rad)) == TrimBox(pad, shape, p, None)
  {
    var m0 := TrimBox(pad, shape, p, None);
    var m1 := TrimBox(pad, shape, p, Some(rad));
    forall i | 0 <= i < |p|
      ensures m1[i] == m0[i]
    {
      assert forall a :: 0 <= a < 3 ==> p[i][a] + rad[i] == p[i][a] && p[i][a] - rad[i] == p[i][a];
    }
  }

  /** `good_particles`: positive radius, active type (typ == 1), and, when
      `inbox`, inside the padded image (by centre, or by extent when
      `inboxrad`). */
  function GoodParticles(st: Snapshot, inbox: bool, inboxrad: bool): (m: seq<bool>)
    requires st.Consistent()
    ensures |m| == |st.pos|
    ensures forall i :: 0 <= i < |m| && m[i] ==> st.rad[i] > 0.0 && st.typ[i] == 1.0
    ensures !inbox ==> forall i :: 0 <= i < |m| ==> (m[i] <==> st.rad[i] > 0.0 && st.typ[i] == 1.0)
    ensures inbox ==> forall i :: 0 <= i < |m| ==>
      (m[i] <==> st.rad[i] > 0.0 && st.typ[i] == 1.0
                 && TrimBox(st.pad, st.shape, st.pos, if inboxrad then Some(st.rad) else None)[i])
  {
    var base := seq(|st.rad|, i requires 0 <= i < |st.rad| => st.rad[i] > 0.0);
    var active := seq(|base|, i requires 0 <= i < |base| => base[i] && st.typ[i] == 1.0);
    if !inbox then active
    else
      var box := TrimBox(st.pad, st.shape, st.pos, if inboxrad then Some(st.rad) else None);
      seq(|active|, i requires 0 <= i < |active| => active[i] && box[i])
  }

  /** Counting by extent admits every particle that counting by centre does. */
  lemma ExtentAdmitsMore(st: Snapshot, i: nat)
    requires st.Consistent() && i < |st.pos|
    requires GoodParticles(st, true, false)[i]
    ensures GoodParticles(st, true, true)[i]
  {
    RadiusTestWidens(st.pad, st.shape, st.pos, st.rad, i);
  }

  // ---------------------------------------------------------------------------
  // Nearest neighbours
  // ---------------------------------------------------------------------------

  /** Squared Euclidean distance `((a - b)**2).sum()`. */
  function SqDist(a: Vec3, b: Vec3): (d: real)
    ensures d >= 0.0
  {
    Sq(a[0] - b[0]) + Sq(a[1] - b[1]) + Sq(a[2] - b[2])
  }

  /** A square-root oracle is only trusted to preserve order. */
  ghost predicate Increasing(root: real -> real)
  {
    forall x: real, y: real :: 0.0 <= x < y ==> root(x) < root(y)
  }

  /** numpy's `argmin`: the first position of the smallest entry. */
  function ArgMin(ds: seq<real>): (k: nat)
    requires |ds| > 0
    ensures k < |ds|
    ensures forall j :: 0 <= j < |ds| ==> ds[k] <= ds[j]
    ensures forall j :: 0 <= j < k ==> ds[j] > ds[k]
  {
    if |ds| == 1 then 0
    else
      var k := ArgMin(ds[..|ds| - 1]);
      assert forall j :: 0 <= j < |ds| - 1 ==> ds[..|ds| - 1][j] == ds[j];
      if ds[|ds| - 1] < ds[k] then |ds| - 1 else k
  }

  /** j is the first index of ps closest to q. */
  predicate IsNearest(q: Vec3, ps: seq<Vec3>, j: nat)
  {
    j < |ps|
    && (forall k :: 0 <= k < |ps| ==> SqDist(q, ps[j]) <= SqDist(q, ps[k]))
    && (forall k :: 0 <= k < j ==> SqDist(q, ps[k]) > SqDist(q, ps[j]))
  }

  lemma RootReflects(root: real -> real, x: real, y: real)
    requires Increasing(root) && 0.0 <= x && 0.0 <= y && root(x) <= root(y)
    ensures x <= y
  {
  }

  lemma RootReflectsStrict(root: real -> real, x: real, y: real)
    requires Increasing(root) && 0.0 <= x && 0.0 <= y && root(x) < root(y)
    ensures x < y
  {
  }

  /** The argmin of the rooted distances is the first nearest point. */
  lemma RootedArgMin(q: Vec3, ps: seq<Vec3>, root: real -> real)
    requires Increasing(root) && |ps| > 0
    ensures IsNearest(q, ps, ArgMin(seq(|ps|, k requires 0 <= k < |ps| => root(SqDist(q, ps[k])))))
  {
    var ds := seq(|ps|, k requires 0 <= k < |ps| => root(SqDist(q, ps[k])));
    var j := ArgMin(ds);
    forall k | 0 <= k < |ps|
      ensures SqDist(q, ps[j]) <= SqDist(q, ps[k])
    {
      assert ds[j] == root(SqDist(q, ps[j])) && ds[k] == root(SqDist(q, ps[k]));
      RootReflects(root, SqDist(q, ps[j]), SqDist(q, ps[k]));
    }
    forall k | 0 <= k < j
      ensures SqDist(q, ps[k]) > SqDist(q, ps[j])
    {
      assert ds[j] == root(SqDist(q, ps[j])) && ds[k] == root(SqDist(q, ps[k]));
      RootReflectsStrict(root, SqDist(q, ps[j]), SqDist(q, ps[k]));
    }
  }

  /** `nearest`: for each point of p0, the index of the first closest point
      of p1. An empty p1 makes the first argmin fail. */
  method Nearest(p0: seq<Vec3>, p1: seq<Vec3>, root: real -> real) returns (r: Result<seq<nat>>)
    requires Increasing(root)
    ensures r.Err? <==> |p0| > 0 && |p1| == 0
    ensures r.Err? ==> r == Err(ValueError("attempt to get argmin of an empty sequence"))
    ensures r.Ok? ==> |r.value| == |p0|
    ensures r.Ok? ==> forall i :: 0 <= i < |p0| ==> IsNearest(p0[i], p1, r.value[i])
  {
    var ind: seq<nat> := [];
    for i := 0 to |p0|
      invariant |ind| == i
      invariant forall k :: 0 <= k < i ==> IsNearest(p0[k], p1, ind[k])
      invariant i > 0 ==> |p1| > 0
    {
      if |p1| == 0 {
        return Err(ValueError("attempt to get argmin of an empty sequence"));
      }
      var dist := seq(|p1|, k requires 0 <= k < |p1| => root(SqDist(p0[i], p1[k])));
      RootedArgMin(p0[i], p1, root);
      ind := ind + [ArgMin(dist)];
    }
    return Ok(ind);
  }

  /** The matched index is determined by the points alone. */
  lemma NearestUnique(q: Vec3, ps: seq<Vec3>, j: nat, k: nat)
    requires IsNearest(q, ps, j) && IsNearest(q, ps, k)
    ensures j == k
  {
    var dj, dk := SqDist(q, ps[j]), SqDist(q, ps[k]);
    assert j < k ==> dj > dk;
    assert k < j ==> dk > dj;
  }

  // ---------------------------------------------------------------------------
  // Pair separations
  // ---------------------------------------------------------------------------

  /** The pairs `(i, o)` for `o in arange(i + 1, n)`. */
  function Row(i: nat, n: nat): (ps: seq<(nat, nat)>)
    requires i < n
    ensures |ps| == n - 1 - i
    ensures forall k :: 0 <= k < |ps| ==> ps[k] == (i, i + 1 + k)
  {
    seq(n - 1 - i, k requires 0 <= k < n - 1 - i => (i, i + 1 + k))
  }

  /** The rows for i = 0 .. rows - 1, in order. */
  function PairsBelow(rows: nat, n: nat): seq<(nat, nat)>
    requires rows <= n
  {
    if rows == 0 then [] else PairsBelow(rows - 1, n) + Row(rows - 1, n)
  }

  /** The pairs `gofr` visits for n particles: rows 0 .. n - 2. */
  function Pairs(n: nat): seq<(nat, nat)>
  {
    if n == 0 then [] else PairsBelow(n - 1, n)
  }

  predicate LexLess(p: (nat, nat), q: (nat, nat))
  {
    p.0 < q.0 || (p.0 == q.0 && p.1 < q.1)
  }

  lemma {:induction false} PairsBelowMembers(rows: nat, n: nat)
    requires rows <= n
    ensures forall p :: p in PairsBelow(rows, n) <==> p.0 < rows && p.0 < p.1 < n
  {
    if rows > 0 {
      PairsBelowMembers(rows - 1, n);
      var row := Row(rows - 1, n);
      forall p: (nat, nat) | p.0 == rows - 1 && p.0 < p.1 < n
        ensures p in row
      {
        assert row[p.1 - rows] == p;
      }
    }
  }

  lemma {:induction false} PairsBelowCount(rows: nat, n: nat)
    requires rows <= n
    ensures 2 * |PairsBelow(rows, n)| == rows * (2 * n - rows - 1)
  {
    if rows > 0 {
      PairsBelowCount(rows - 1, n);
      calc {
        2 * |PairsBelow(rows, n)|;
        2 * |PairsBelow(rows - 1, n)| + 2 * (n - rows);
        (rows - 1) * (2 * n - rows) + 2 * (n - rows);
        rows * (2 * n - rows - 1);
      }
    }
  }

  lemma {:induction false} PairsBelowSorted(rows: nat, n: nat)
    requires rows <= n
    ensures forall a, b :: 0 <= a < b < |PairsBelow(rows, n)| ==>
      LexLess(PairsBelow(rows, n)[a], PairsBelow(rows, n)[b])
  {
    if rows > 0 {
      PairsBelowSorted(rows - 1, n);
      PairsBelowMembers(rows - 1, n);
      var front := PairsBelow(rows - 1, n);
      var row := Row(rows - 1, n);
      var all := front + row;
      forall a, b | 0 <= a < b < |all|
        ensures LexLess(all[a], all[b])
      {
        if b < |front| {
          assert all[a] == front[a] && all[b] == front[b];
        } else if a < |front| {
          assert all[a] == front[a] && front[a] in front;
        }
      }
    }
  }

  /** `gofr` visits every pair i < j < n exactly once, in lexicographic
      order: n(n-1)/2 values. */
  lemma PairsEnumerate(n: nat)
    ensures |Pairs(n)| == n * (n - 1) / 2
    ensures forall p :: p in Pairs(n) <==> p.0 < p.1 < n
    ensures forall a, b :: 0 <= a < b < |Pairs(n)| ==> LexLess(Pairs(n)[a], Pairs(n)[b])
  {
    if n > 0 {
      PairsBelowCount(n - 1, n);
      PairsBelowMembers(n - 1, n);
      PairsBelowSorted(n - 1, n);
    }
  }

  /** `((z * (a - b))**2).sum()` with `z = [zscale, 1, 1]`. */
  function ZDist2(a: Vec3, b: Vec3, zscale: real): (d: real)
    ensures d >= 0.0
  {
    Sq(zscale * (a[0] - b[0])) + Sq(a[1] - b[1]) + Sq(a[2] - b[2])
  }

  /** The centre separation of a pair (0 for a pair outside pos, which no
      successful run meets). */
  function PairSep(pos: seq<Vec3>, p: (nat, nat), zscale: real, root: real -> real): real
  {
    if p.0 < |pos| && p.1 < |pos| then root(ZDist2(pos[p.0], pos[p.1], zscale)) else 0.0
  }

  function Seps(pos: seq<Vec3>, ps: seq<(nat, nat)>, zscale: real, root: real -> real): (d: seq<real>)
    ensures |d| == |ps|
  {
    seq(|ps|, k requires 0 <= k < |ps| => PairSep(pos, ps[k], zscale, root))
  }

  /** The surface separation: centre separation minus both radii. */
  function SurfaceSeps(pos: seq<Vec3>, rad: seq<real>, ps: seq<(nat, nat)>, zscale: real, root: real -> real): (d: seq<real>)
    ensures |d| == |ps|
  {
    seq(|ps|, k requires 0 <= k < |ps| =>
      PairSep(pos, ps[k], zscale, root)
      - ((if ps[k].0 < |rad| then rad[ps[k].0] else 0.0) + (if ps[k].1 < |rad| then rad[ps[k].1] else 0.0)))
  }

  lemma SepsAppend(pos: seq<Vec3>, ps: seq<(nat, nat)>, qs: seq<(nat, nat)>, zscale: real, root: real -> real)
    ensures Seps(pos, ps + qs, zscale, root) == Seps(pos, ps, zscale, root) + Seps(pos, qs, zscale, root)
  {
  }

  lemma SurfaceSepsAppend(pos: seq<Vec3>, rad: seq<real>, ps: seq<(nat, nat)>, qs: seq<(nat, nat)>, zscale: real, root: real -> real)
    ensures SurfaceSeps(pos, rad, ps + qs, zscale, root)
         == SurfaceSeps(pos, rad, ps, zscale, root) + SurfaceSeps(pos, rad, qs, zscale, root)
  {
  }

  /** `gofr`: the z-scaled centre separations of all pairs, in the order of
      Pairs. The first row indexes pos up to n - 1, so a pos shorter than
      rad fails there (n = |rad| >= 2). */
  method Gofr(pos: seq<Vec3>, rad: seq<real>, zscale: real, root: real -> real) returns (r: Result<seq<real>>)
    ensures r.Err? <==> |rad| >= 2 && |pos| < |rad|
    ensures r.Err? ==> r.failure.IndexError?
    ensures r.Ok? ==> r.value == Seps(pos, Pairs(|rad|), zscale, root)
  {
    var n := |rad|;
    var seps: seq<real> := [];
    var i := 0;
    while i < n - 1
      invariant 0 <= i <= n
      invariant n >= 1 ==> i <= n - 1
      invariant i > 0 ==> |pos| >= n
      invariant seps == Seps(pos, PairsBelow(i, n), zscale, root)
    {
      if n - 1 >= |pos| {
        return Err(IndexError("index out of bounds for axis 0"));
      }
      var d := Seps(pos, Row(i, n), zscale, root);
      SepsAppend(pos, PairsBelow(i, n), Row(i, n), zscale, root);
      seps := seps + d;
      i := i + 1;
    }
    return Ok(seps);
  }

  /** `gofr_surfaces`: the same pairs, each separation reduced by the two
      radii. */
  method GofrSurfaces(pos: seq<Vec3>, rad: seq<real>, zscale: real, root: real -> real) returns (r: Result<seq<real>>)
    ensures r.Err? <==> |rad| >= 2 && |pos| < |rad|
    ensures r.Err? ==> r.failure.IndexError?
    ensures r.Ok? ==> r.value == SurfaceSeps(pos, rad, Pairs(|rad|), zscale, root)
  {
    var n := |rad|;
    var seps: seq<real> := [];
    var i := 0;
    while i < n - 1
      invariant 0 <= i <= n
      invariant n >= 1 ==> i <= n - 1
      invariant i > 0 ==> |pos| >= n
      invariant seps == SurfaceSeps(pos, rad, PairsBelow(i, n), zscale, root)
    {
      if n - 1 >= |pos| {
        return Err(IndexError("index out of bounds for axis 0"));
      }
      var diff := SurfaceSeps(pos, rad, Row(i, n), zscale, root);
      SurfaceSepsAppend(pos, rad, PairsBelow(i, n), Row(i, n), zscale, root);
      seps := seps + diff;
      i := i + 1;
    }
    return Ok(seps);
  }

  /** Entry k of `gofr_surfaces` is entry k of `gofr` less r_i + r_j for the
      k-th pair (i, j). */
  lemma SurfacesAreCentresMinusRadii(pos: seq<Vec3>, rad: seq<real>, zscale: real, root: real -> real, k: nat)
    requires |pos| >= |rad| && k < |Pairs(|rad|)|
    ensures Pairs(|rad|)[k].0 < Pairs(|rad|)[k].1 < |rad|
    ensures SurfaceSeps(pos, rad, Pairs(|rad|), zscale, root)[k]
         == Seps(pos, Pairs(|rad|), zscale, root)[k] - (rad[Pairs(|rad|)[k].0] + rad[Pairs(|rad|)[k].1])
  {
    PairsEnumerate(|rad|);
    assert Pairs(|rad|)[k] in Pairs(|rad|);
  }

  // ---------------------------------------------------------------------------
  // Packing fraction: the particle count
  // ---------------------------------------------------------------------------

  /** A `cbamf.util.Tile` with real corners. */
  datatype Bounds = Bounds(l: Vec3, r: Vec3)

  /** `Tile(left=state.pad, right=np.array(state.image.shape) - state.pad)`. */
  function ImageBounds(pad: int, shape: IVec3): (b: Bounds)
    ensures forall a :: 0 <= a < 3 ==> b.l[a] == pad as real && b.r[a] == (shape[a] - pad) as real
  {
    Bounds([pad as real, pad as real, pad as real],
           [(shape[0] - pad) as real, (shape[1] - pad) as real, (shape[2] - pad) as real])
  }

  /** The sphere of radius r at p reaches into the open box on every axis. */
  predicate Touches(p: Vec3, r: real, b: Bounds)
  {
    forall a :: 0 <= a < 3 ==> b.l[a] - r < p[a] < b.r[a] + r
  }

  /** The indices below k whose particle touches the box, in order. */
  function TouchingBelow(pos: seq<Vec3>, rad: seq<real>, b: Bounds, k: nat): (t: seq<nat>)
    requires k <= |pos| && k <= |rad|
    ensures |t| <= k
  {
    if k == 0 then []
    else TouchingBelow(pos, rad, b, k - 1) + (if Touches(pos[k - 1], rad[k - 1], b) then [k - 1] else [])
  }

  lemma {:induction false} TouchingBelowMembers(pos: seq<Vec3>, rad: seq<real>, b: Bounds, k: nat)
    requires k <= |pos| && k <= |rad|
    ensures forall i: nat :: i in TouchingBelow(pos, rad, b, k) <==> i < k && Touches(pos[i], rad[i], b)
    ensures forall x, y :: 0 <= x < y < |TouchingBelow(pos, rad, b, k)| ==>
      TouchingBelow(pos, rad, b, k)[x] < TouchingBelow(pos, rad, b, k)[y]
  {
    if k > 0 {
      TouchingBelowMembers(pos, rad, b, k - 1);
      var prev := TouchingBelow(pos, rad, b, k - 1);
      var last: seq<nat> := if Touches(pos[k - 1], rad[k - 1], b) then [k - 1] else [];
      assert TouchingBelow(pos, rad, b, k) == prev + last;
      forall i: nat
        ensures i in prev + last <==> i < k && Touches(pos[i], rad[i], b)
      {
        assert i in prev + last <==> i in prev || i in last;
      }
      forall x, y | 0 <= x < y < |prev + last|
        ensures (prev + last)[x] < (prev + last)[y]
      {
        if y >= |prev| {
          assert prev[x] in prev;
        }
      }
    }
  }

  /** The particle count `packing_fraction` returns alongside the volume
      fraction: particles zipped with radii (the shorter list decides),
      counted when they touch the bounds; bounds come from the state when
      one is given. With neither, reading `bounds.r` fails. */
  method PackingCount(pos: seq<Vec3>, rad: seq<real>, bounds: Option<Bounds>, state: Option<Snapshot>)
    returns (r: Result<nat>)
    ensures r.Err? <==> bounds.None? && state.None?
    ensures r.Err? ==> r == Err(AttributeError("'NoneType' object has no attribute 'r'"))
    ensures r.Ok? ==> r.value == |TouchingBelow(pos, rad,
      if state.Some? then ImageBounds(state.value.pad, state.value.shape) else bounds.value,
      IMin(|pos|, |rad|))|
  {
    var b: Bounds;
    if state.Some? {
      b := ImageBounds(state.value.pad, state.value.shape);
    } else if bounds.Some? {
      b := bounds.value;
    } else {
      return Err(AttributeError("'NoneType' object has no attribute 'r'"));
    }
    var m := IMin(|pos|, |rad|);
    var nparticles := 0;
    for k := 0 to m
      invariant nparticles == |TouchingBelow(pos, rad, b, k)|
    {
      if Touches(pos[k], rad[k], b) {
        nparticles := nparticles + 1;
      }
    }
    return Ok(nparticles);
  }

  // ---------------------------------------------------------------------------
  // Sample iteration
  // ---------------------------------------------------------------------------

  /** `x.reshape(-1, 3)`. */
  function Reshape3(xs: seq<real>): (vs: seq<Vec3>)
    requires |xs| % 3 == 0
    ensures 3 * |vs| == |xs|
    ensures forall k, a :: 0 <= k < |vs| && 0 <= a < 3 ==> vs[k][a] == xs[3 * k + a]
  {
    seq(|xs| / 3, k requires 0 <= k < |xs| / 3 => [xs[3 * k], xs[3 * k + 1], xs[3 * k + 2]])
  }

  /** The rows laid end to end (`vs.ravel()`). */
  function Flatten(vs: seq<Vec3>): (xs: seq<real>)
    ensures |xs| == 3 * |vs|
  {
    if |vs| == 0 then [] else vs[0] + Flatten(vs[1..])
  }

  lemma {:induction false} FlattenReshape(xs: seq<real>)
    requires |xs| % 3 == 0
    ensures Flatten(Reshape3(xs)) == xs
    decreases |xs|
  {
    if |xs| > 0 {
      var vs := Reshape3(xs);
      assert vs[1..] == Reshape3(xs[3..]);
      FlattenReshape(xs[3..]);
      assert vs[0] == xs[..3];
      assert xs == xs[..3] + xs[3..];
    }
  }

  /** Entry a of row k sits at 3k + a once the rows are laid end to end. */
  lemma {:induction false} FlattenEntry(vs: seq<Vec3>, k: nat, a: nat)
    requires k < |vs| && a < 3
    ensures Flatten(vs)[3 * k + a] == vs[k][a]
  {
    if k > 0 {
      FlattenEntry(vs[1..], k - 1, a);
    }
  }

  lemma ReshapeFlatten(vs: seq<Vec3>)
    ensures Reshape3(Flatten(vs)) == vs
  {
    var xs := Flatten(vs);
    var ws := Reshape3(xs);
    forall k | 0 <= k < |vs|
      ensures ws[k] == vs[k]
    {
      FlattenEntry(vs, k, 0);
      FlattenEntry(vs, k, 1);
      FlattenEntry(vs, k, 2);
    }
  }

  /** `iter_pos_rad`: one (positions, radii) pair per sample, in order, the
      positions regrouped into rows of three. A position block whose size is
      not a multiple of three fails at the first sample. */
  function IterPosRad(samples: seq<seq<real>>, bPos: seq<bool>, bRad: seq<bool>): (r: Result<seq<(seq<Vec3>, seq<real>)>>)
    requires forall k :: 0 <= k < |samples| ==> |samples[k]| == |bPos| == |bRad|
    ensures r.Err? <==> |samples| > 0 && Count(bPos) % 3 != 0
    ensures r.Err? ==> r.failure.ValueError?
    ensures r.Ok? ==> |r.value| == |samples|
    ensures r.Ok? ==> forall k :: 0 <= k < |samples| ==>
      Flatten(r.value[k].0) == Select(samples[k], bPos) && r.value[k].1 == Select(samples[k], bRad)
  {
    if |samples| > 0 && Count(bPos) % 3 != 0 then Err(ValueError("cannot reshape array into shape (-1, 3)"))
    else
      var out := seq(|samples|, k requires 0 <= k < |samples| =>
        (Reshape3(Select(samples[k], bPos)), Select(samples[k], bRad)));
      assert forall k :: 0 <= k < |samples| ==> Flatten(out[k].0) == Select(samples[k], bPos) by {
        forall k | 0 <= k < |samples| {
          FlattenReshape(Select(samples[k], bPos));
        }
      }
      Ok(out)
  }
}
