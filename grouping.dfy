/** Spatial partition of particles into grid boxes (`find_particles_in_box`,
    `separate_particles_into_groups`). Boxes are half-open on the left:
    a particle belongs to the box (lo, hi] on every axis. */
module Grouping {
  import opened Wrappers
  import opened Numeric

  /** A grid box given by its integer corners, as built from the `range` starts. */
  datatype Box = Box(lo: IVec3, hi: IVec3)

  function Real3(c: IVec3): (r: Vec3)
    ensures forall i :: 0 <= i < 3 ==> r[i] == c[i] as real
  {
    [c[0] as real, c[1] as real, c[2] as real]
  }

  /** The test `(pos > bounds[0]) & (pos <= bounds[1])` on all three axes. */
  predicate InBox(p: Vec3, lo: Vec3, hi: Vec3)
  {
    forall i :: 0 <= i < 3 ==> lo[i] < p[i] <= hi[i]
  }

  predicate InGridBox(p: Vec3, b: Box)
  {
    InBox(p, Real3(b.lo), Real3(b.hi))
  }

  predicate StrictlyIncreasing(s: seq<nat>)
  {
    forall k, l :: 0 <= k < l < |s| ==> s[k] < s[l]
  }

  /** Indices below n of the particles inside the box, in ascending order. */
  function InBoxBelow(pos: seq<Vec3>, lo: Vec3, hi: Vec3, n: nat): (inds: seq<nat>)
    requires n <= |pos|
    ensures forall k :: 0 <= k < |inds| ==> inds[k] < n && InBox(pos[inds[k]], lo, hi)
    ensures StrictlyIncreasing(inds)
    ensures forall j :: 0 <= j < n && InBox(pos[j], lo, hi) ==> j in inds
  {
    if n == 0 then []
    else InBoxBelow(pos, lo, hi, n - 1) + (if InBox(pos[n - 1], lo, hi) then [n - 1] else [])
  }

  /** `find_particles_in_box`: `np.nonzero` of the in-box mask. The result
      lists exactly the particles inside the box, each once, ascending. */
  function FindParticlesInBox(pos: seq<Vec3>, lo: Vec3, hi: Vec3): (inds: seq<nat>)
    ensures forall k :: 0 <= k < |inds| ==> inds[k] < |pos| && InBox(pos[inds[k]], lo, hi)
    ensures StrictlyIncreasing(inds)
    ensures forall j :: 0 <= j < |pos| ==> (j in inds <==> InBox(pos[j], lo, hi))
  {
    InBoxBelow(pos, lo, hi, |pos|)
  }

  /** Python's `range(lo, hi, step)` for a non-zero step. */
  function Range(lo: int, hi: int, step: int): (r: seq<int>)
    requires step != 0
    decreases if step > 0 then hi - lo else lo - hi
  {
    if (step > 0 && lo < hi) || (step < 0 && lo > hi) then [lo] + Range(lo + step, hi, step)
    else []
  }

  function MkBox(a: int, b: int, c: int, rs: IVec3): Box
  {
    Box([a, b, c], [a + rs[0], b + rs[1], c + rs[2]])
  }

  /** Boxes for fixed first and second starts, one per third start. */
  function Row(a: int, b: int, p2: seq<int>, rs: IVec3): seq<Box>
  {
    if |p2| == 0 then [] else Row(a, b, p2[..|p2| - 1], rs) + [MkBox(a, b, p2[|p2| - 1], rs)]
  }

  function Plane(a: int, p1: seq<int>, p2: seq<int>, rs: IVec3): seq<Box>
  {
    if |p1| == 0 then [] else Plane(a, p1[..|p1| - 1], p2, rs) + Row(a, p1[|p1| - 1], p2, rs)
  }

  /** All boxes in the order of the three nested loops. */
  function Boxes(p0: seq<int>, p1: seq<int>, p2: seq<int>, rs: IVec3): seq<Box>
  {
    if |p0| == 0 then [] else Boxes(p0[..|p0| - 1], p1, p2, rs) + Plane(p0[|p0| - 1], p1, p2, rs)
  }

  function GroupOf(pos: seq<Vec3>, b: Box): seq<nat>
  {
    FindParticlesInBox(pos, Real3(b.lo), Real3(b.hi))
  }

  /** The non-empty box contents, in box order. */
  function Groups(pos: seq<Vec3>, boxes: seq<Box>): seq<seq<nat>>
  {
    if |boxes| == 0 then []
    else
      var g := GroupOf(pos, boxes[|boxes| - 1]);
      Groups(pos, boxes[..|boxes| - 1]) + (if |g| > 0 then [g] else [])
  }

  /** The starts of the grid along each axis. */
  function Starts(lo: IVec3, hi: IVec3, rs: IVec3, i: nat): seq<int>
    requires i < 3 && rs[i] != 0
  {
    Range(lo[i], hi[i], rs[i])
  }

  /** What `separate_particles_into_groups` returns for non-zero box sizes. */
  function GroupsSpec(pos: seq<Vec3>, lo: IVec3, hi: IVec3, rs: IVec3): seq<seq<nat>>
    requires rs[0] != 0 && rs[1] != 0 && rs[2] != 0
  {
    Groups(pos, Boxes(Starts(lo, hi, rs, 0), Starts(lo, hi, rs, 1), Starts(lo, hi, rs, 2), rs))
  }

  lemma RowSnoc(a: int, b: int, p2: seq<int>, k: nat, rs: IVec3)
    requires k < |p2|
    ensures Row(a, b, p2[..k + 1], rs) == Row(a, b, p2[..k], rs) + [MkBox(a, b, p2[k], rs)]
  {
    assert p2[..k + 1][..k] == p2[..k];
  }

  lemma PlaneSnoc(a: int, p1: seq<int>, p2: seq<int>, j: nat, rs: IVec3)
    requires j < |p1|
    ensures Plane(a, p1[..j + 1], p2, rs) == Plane(a, p1[..j], p2, rs) + Row(a, p1[j], p2, rs)
  {
    assert p1[..j + 1][..j] == p1[..j];
  }

  lemma BoxesSnoc(p0: seq<int>, p1: seq<int>, p2: seq<int>, i: nat, rs: IVec3)
    requires i < |p0|
    ensures Boxes(p0[..i + 1], p1, p2, rs) == Boxes(p0[..i], p1, p2, rs) + Plane(p0[i], p1, p2, rs)
  {
    assert p0[..i + 1][..i] == p0[..i];
  }

  lemma GroupsSnoc(pos: seq<Vec3>, boxes: seq<Box>, b: nat)
    requires b < |boxes|
    ensures Groups(pos, boxes[..b + 1])
         == Groups(pos, boxes[..b]) + (if |GroupOf(pos, boxes[b])| > 0 then [GroupOf(pos, boxes[b])] else [])
  {
    assert boxes[..b + 1][..b] == boxes[..b];
  }

  /** Innermost loop of `separate_particles_into_groups`: one box per start
      along the last axis. */
  method AppendRow(boxes: seq<Box>, a: int, b: int, p2: seq<int>, rs: IVec3) returns (r: seq<Box>)
    ensures r == boxes + Row(a, b, p2, rs)
  {
    r := boxes;
    for k := 0 to |p2|
      invariant r == boxes + Row(a, b, p2[..k], rs)
    {
      RowSnoc(a, b, p2, k, rs);
      r := r + [MkBox(a, b, p2[k], rs)];
    }
    assert p2[..|p2|] == p2;
  }

  /** Middle loop: one row per start along the second axis. */
  method AppendPlane(boxes: seq<Box>, a: int, p1: seq<int>, p2: seq<int>, rs: IVec3) returns (r: seq<Box>)
    ensures r == boxes + Plane(a, p1, p2, rs)
  {
    r := boxes;
    for j := 0 to |p1|
      invariant r == boxes + Plane(a, p1[..j], p2, rs)
    {
      PlaneSnoc(a, p1, p2, j, rs);
      r := AppendRow(r, a, p1[j], p2, rs);
    }
    assert p1[..|p1|] == p1;
  }

  /** Outer loop: every box of the grid, last axis fastest. */
  method AllBoxes(p0: seq<int>, p1: seq<int>, p2: seq<int>, rs: IVec3) returns (allBoxes: seq<Box>)
    ensures allBoxes == Boxes(p0, p1, p2, rs)
  {
    allBoxes := [];
    for i := 0 to |p0|
      invariant allBoxes == Boxes(p0[..i], p1, p2, rs)
    {
      BoxesSnoc(p0, p1, p2, i, rs);
      allBoxes := AppendPlane(allBoxes, p0[i], p1, p2, rs);
    }
    assert p0[..|p0|] == p0;
  }

  /** The lower and upper grid bounds: `bounds`, or the whole image by default. */
  function GridBounds(bounds: Option<(IVec3, IVec3)>, shape: IVec3): (r: (IVec3, IVec3))
    ensures bounds.Some? ==> r == bounds.value
    ensures bounds.None? ==> r.0 == [0, 0, 0] && r.1 == shape
  {
    if bounds.Some? then bounds.value else ([0, 0, 0], shape)
  }

  /** `separate_particles_into_groups`: builds every box of the grid over
      `bounds` (the whole image by default), then keeps the non-empty box
      contents. A zero box size is rejected by `range`. */
  method SeparateParticlesIntoGroups(pos: seq<Vec3>, regionSize: IVec3,
                                     bounds: Option<(IVec3, IVec3)>, shape: IVec3)
    returns (r: Result<seq<seq<nat>>>)
    ensures r.Err? <==> (regionSize[0] == 0 || regionSize[1] == 0 || regionSize[2] == 0)
    ensures r.Err? ==> r == Err(ValueError("range() step argument must not be zero"))
    ensures r.Ok? ==>
      r.value == GroupsSpec(pos, GridBounds(bounds, shape).0, GridBounds(bounds, shape).1, regionSize)
  {
    var lo, hi := GridBounds(bounds, shape).0, GridBounds(bounds, shape).1;
    var rs := regionSize;
    if rs[0] == 0 || rs[1] == 0 || rs[2] == 0 {
      return Err(ValueError("range() step argument must not be zero"));
    }
    var allBoxes := AllBoxes(Range(lo[0], hi[0], rs[0]), Range(lo[1], hi[1], rs[1]), Range(lo[2], hi[2], rs[2]), rs);

    var groups: seq<seq<nat>> := [];
    for b := 0 to |allBoxes|
      invariant groups == Groups(pos, allBoxes[..b])
    {
      var cur := FindParticlesInBox(pos, Real3(allBoxes[b].lo), Real3(allBoxes[b].hi));
      if |cur| > 0 {
        groups := groups + [cur];
      }
      GroupsSnoc(pos, allBoxes, b);
    }
    assert allBoxes[..|allBoxes|] == allBoxes;
    return Ok(groups);
  }

  // ---------------------------------------------------------------------
  // Counting how many boxes and groups hold a particle.

  function Ind(b: bool): nat { if b then 1 else 0 }

  /** The start s brackets coordinate x for box size r: s < x <= s + r. */
  predicate Brackets(s: int, x: real, r: int)
  {
    s as real < x <= (s + r) as real
  }

  /** Number of starts that bracket x. */
  function CountStarts(starts: seq<int>, x: real, r: int): nat
  {
    if |starts| == 0 then 0
    else CountStarts(starts[..|starts| - 1], x, r) + Ind(Brackets(starts[|starts| - 1], x, r))
  }

  function CountBoxes(boxes: seq<Box>, p: Vec3): nat
  {
    if |boxes| == 0 then 0
    else CountBoxes(boxes[..|boxes| - 1], p) + Ind(InGridBox(p, boxes[|boxes| - 1]))
  }

  /** Number of groups that list particle j. */
  function CountContaining(gs: seq<seq<nat>>, j: nat): nat
  {
    if |gs| == 0 then 0
    else CountContaining(gs[..|gs| - 1], j) + Ind(j in gs[|gs| - 1])
  }

  lemma {:induction false} CountStartsAppend(a: seq<int>, b: seq<int>, x: real, r: int)
    ensures CountStarts(a + b, x, r) == CountStarts(a, x, r) + CountStarts(b, x, r)
  {
    if |b| > 0 {
      assert (a + b)[..|a + b| - 1] == a + b[..|b| - 1];
      CountStartsAppend(a, b[..|b| - 1], x, r);
    } else {
      assert a + b == a;
    }
  }

  lemma {:induction false} CountBoxesAppend(a: seq<Box>, b: seq<Box>, p: Vec3)
    ensures CountBoxes(a + b, p) == CountBoxes(a, p) + CountBoxes(b, p)
  {
    if |b| > 0 {
      assert (a + b)[..|a + b| - 1] == a + b[..|b| - 1];
      CountBoxesAppend(a, b[..|b| - 1], p);
    } else {
      assert a + b == a;
    }
  }

  /** Along one axis, the starts of `range(lo, hi, r)` with r > 0 bracket a
      coordinate at most once, exactly once when lo < x <= hi, and never when
      x <= lo. */
  lemma {:induction false} CountStartsRange(lo: int, hi: int, r: int, x: real)
    requires r > 0
    ensures CountStarts(Range(lo, hi, r), x, r) <= 1
    ensures lo as real < x <= hi as real ==> CountStarts(Range(lo, hi, r), x, r) == 1
    ensures x <= lo as real ==> CountStarts(Range(lo, hi, r), x, r) == 0
    decreases hi - lo
  {
    if lo < hi {
      var rest := Range(lo + r, hi, r);
      assert Range(lo, hi, r) == [lo] + rest;
      CountStartsAppend([lo], rest, x, r);
      assert CountStarts([lo], x, r) == Ind(Brackets(lo, x, r)) by {
        assert [lo][..0] == [];
      }
      CountStartsRange(lo + r, hi, r, x);
    }
  }

  lemma InMkBox(a: int, b: int, c: int, rs: IVec3, p: Vec3)
    ensures InGridBox(p, MkBox(a, b, c, rs))
        <==> Brackets(a, p[0], rs[0]) && Brackets(b, p[1], rs[1]) && Brackets(c, p[2], rs[2])
  {
    var bx := MkBox(a, b, c, rs);
    assert Real3(bx.lo) == [a as real, b as real, c as real];
    assert Real3(bx.hi) == [(a + rs[0]) as real, (b + rs[1]) as real, (c + rs[2]) as real];
  }

  lemma PlaneStep(a: bool, b: bool, x: nat, c: nat, total: nat)
    requires total == (if a then x * c else 0) + (if a && b then c else 0)
    ensures total == if a then (x + Ind(b)) * c else 0
  {
    if a && b {
      assert (x + 1) * c == x * c + c;
    }
  }

  lemma BoxesStep(x: nat, a: bool, c: nat, total: nat)
    requires total == x * c + (if a then c else 0)
    ensures total == (x + Ind(a)) * c
  {
    if a {
      assert (x + 1) * c == x * c + c;
    }
  }

  lemma {:induction false} RowCount(a: int, b: int, p2: seq<int>, rs: IVec3, p: Vec3)
    ensures CountBoxes(Row(a, b, p2, rs), p)
         == if Brackets(a, p[0], rs[0]) && Brackets(b, p[1], rs[1]) then CountStarts(p2, p[2], rs[2]) else 0
  {
    if |p2| > 0 {
      var n := |p2|;
      var c := p2[n - 1];
      RowCount(a, b, p2[..n - 1], rs, p);
      CountBoxesAppend(Row(a, b, p2[..n - 1], rs), [MkBox(a, b, c, rs)], p);
      assert [MkBox(a, b, c, rs)][..0] == [];
      InMkBox(a, b, c, rs, p);
    }
  }

  lemma {:induction false} PlaneCount(a: int, p1: seq<int>, p2: seq<int>, rs: IVec3, p: Vec3)
    ensures CountBoxes(Plane(a, p1, p2, rs), p)
         == if Brackets(a, p[0], rs[0]) then CountStarts(p1, p[1], rs[1]) * CountStarts(p2, p[2], rs[2]) else 0
  {
    if |p1| > 0 {
      var n := |p1|;
      var b := p1[n - 1];
      var c2 := CountStarts(p2, p[2], rs[2]);
      var x := CountStarts(p1[..n - 1], p[1], rs[1]);
      var pa := Brackets(a, p[0], rs[0]);
      var pb := Brackets(b, p[1], rs[1]);
      PlaneCount(a, p1[..n - 1], p2, rs, p);
      RowCount(a, b, p2, rs, p);
      CountBoxesAppend(Plane(a, p1[..n - 1], p2, rs), Row(a, b, p2, rs), p);
      assert CountStarts(p1, p[1], rs[1]) == x + Ind(pb);
      PlaneStep(pa, pb, x, c2, CountBoxes(Plane(a, p1, p2, rs), p));
    }
  }

  lemma {:induction false} BoxesCount(p0: seq<int>, p1: seq<int>, p2: seq<int>, rs: IVec3, p: Vec3, c12: nat)
    requires c12 == CountStarts(p1, p[1], rs[1]) * CountStarts(p2, p[2], rs[2])
    ensures CountBoxes(Boxes(p0, p1, p2, rs), p) == CountStarts(p0, p[0], rs[0]) * c12
  {
    if |p0| > 0 {
      var n := |p0|;
      var a := p0[n - 1];
      var x := CountStarts(p0[..n - 1], p[0], rs[0]);
      var pa := Brackets(a, p[0], rs[0]);
      BoxesCount(p0[..n - 1], p1, p2, rs, p, c12);
      PlaneCount(a, p1, p2, rs, p);
      CountBoxesAppend(Boxes(p0[..n - 1], p1, p2, rs), Plane(a, p1, p2, rs), p);
      assert CountStarts(p0, p[0], rs[0]) == x + Ind(pa);
      BoxesStep(x, pa, c12, CountBoxes(Boxes(p0, p1, p2, rs), p));
    }
  }

  /** A particle is listed by as many groups as there are boxes containing it:
      dropping empty boxes loses nobody. */
  lemma {:induction false} GroupsCount(pos: seq<Vec3>, boxes: seq<Box>, j: nat)
    requires j < |pos|
    ensures CountContaining(Groups(pos, boxes), j) == CountBoxes(boxes, pos[j])
  {
    if |boxes| > 0 {
      var n := |boxes|;
      var g := GroupOf(pos, boxes[n - 1]);
      var front := Groups(pos, boxes[..n - 1]);
      GroupsCount(pos, boxes[..n - 1], j);
      if |g| > 0 {
        assert Groups(pos, boxes) == front + [g];
        assert (front + [g])[..|front|] == front;
      } else {
        assert Groups(pos, boxes) == front;
        assert j !in g;
        assert !InGridBox(pos[j], boxes[n - 1]);
      }
    }
  }

  /** Every returned group is non-empty, lists valid indices and is ascending. */
  lemma {:induction false} GroupsWellFormed(pos: seq<Vec3>, boxes: seq<Box>, g: nat)
    requires g < |Groups(pos, boxes)|
    ensures |Groups(pos, boxes)[g]| > 0
    ensures StrictlyIncreasing(Groups(pos, boxes)[g])
    ensures forall k :: 0 <= k < |Groups(pos, boxes)[g]| ==> Groups(pos, boxes)[g][k] < |pos|
  {
    var n := |boxes|;
    var front := Groups(pos, boxes[..n - 1]);
    if g < |front| {
      GroupsWellFormed(pos, boxes[..n - 1], g);
    }
  }

  /** Two different groups never share a particle that at most one group lists. */
  lemma {:induction false} AtMostOneGroup(gs: seq<seq<nat>>, j: nat, g: nat, h: nat)
    requires CountContaining(gs, j) <= 1
    requires g < h < |gs|
    ensures !(j in gs[g] && j in gs[h])
  {
    var n := |gs|;
    if h == n - 1 {
      if j in gs[h] {
        assert CountContaining(gs[..n - 1], j) == 0;
        NotContained(gs[..n - 1], j, g);
      }
    } else {
      AtMostOneGroup(gs[..n - 1], j, g, h);
    }
  }

  lemma {:induction false} NotContained(gs: seq<seq<nat>>, j: nat, g: nat)
    requires CountContaining(gs, j) == 0 && g < |gs|
    ensures j !in gs[g]
  {
    if g < |gs| - 1 {
      NotContained(gs[..|gs| - 1], j, g);
    }
  }

  lemma ProductOfIndicators(c0: nat, c1: nat, c2: nat, c12: nat, t: nat)
    requires c0 <= 1 && c1 <= 1 && c2 <= 1 && c12 == c1 * c2 && t == c0 * c12
    ensures t <= 1
    ensures c0 == 1 && c1 == 1 && c2 == 1 ==> t == 1
    ensures c0 == 0 || c1 == 0 || c2 == 0 ==> t == 0
  {
  }

  /** Groups holding particle j, counted as the product of the per-axis
      bracket counts. */
  lemma GroupsCountProduct(pos: seq<Vec3>, lo: IVec3, hi: IVec3, rs: IVec3, j: nat)
    requires rs[0] > 0 && rs[1] > 0 && rs[2] > 0 && j < |pos|
    ensures CountContaining(GroupsSpec(pos, lo, hi, rs), j)
         == CountStarts(Starts(lo, hi, rs, 0), pos[j][0], rs[0])
            * (CountStarts(Starts(lo, hi, rs, 1), pos[j][1], rs[1])
               * CountStarts(Starts(lo, hi, rs, 2), pos[j][2], rs[2]))
  {
    var p := pos[j];
    var p0, p1, p2 := Starts(lo, hi, rs, 0), Starts(lo, hi, rs, 1), Starts(lo, hi, rs, 2);
    GroupsCount(pos, Boxes(p0, p1, p2, rs), j);
    BoxesCount(p0, p1, p2, rs, p, CountStarts(p1, p[1], rs[1]) * CountStarts(p2, p[2], rs[2]));
  }

  /** The grouping theorem for positive box sizes: each particle is listed by
      at most one group, so groups are pairwise disjoint; a particle with
      bounds[0] < p <= bounds[1] on every axis is listed by exactly one; a
      particle on or below the lower bound of some axis is listed by none, so
      with the default bounds a particle at coordinate 0 is never optimized. */
  lemma GroupsPartition(pos: seq<Vec3>, lo: IVec3, hi: IVec3, rs: IVec3, j: nat)
    requires rs[0] > 0 && rs[1] > 0 && rs[2] > 0 && j < |pos|
    ensures CountContaining(GroupsSpec(pos, lo, hi, rs), j) <= 1
    ensures (forall i :: 0 <= i < 3 ==> lo[i] as real < pos[j][i] <= hi[i] as real) ==>
              CountContaining(GroupsSpec(pos, lo, hi, rs), j) == 1
    ensures (exists i :: 0 <= i < 3 && pos[j][i] <= lo[i] as real) ==>
              CountContaining(GroupsSpec(pos, lo, hi, rs), j) == 0
  {
    var p := pos[j];
    var t := CountContaining(GroupsSpec(pos, lo, hi, rs), j);
    var c0 := CountStarts(Starts(lo, hi, rs, 0), p[0], rs[0]);
    var c1 := CountStarts(Starts(lo, hi, rs, 1), p[1], rs[1]);
    var c2 := CountStarts(Starts(lo, hi, rs, 2), p[2], rs[2]);
    GroupsCountProduct(pos, lo, hi, rs, j);
    CountStartsRange(lo[0], hi[0], rs[0], p[0]);
    CountStartsRange(lo[1], hi[1], rs[1], p[1]);
    CountStartsRange(lo[2], hi[2], rs[2], p[2]);
    ProductOfIndicators(c0, c1, c2, c1 * c2, t);
    if forall i :: 0 <= i < 3 ==> lo[i] as real < pos[j][i] <= hi[i] as real {
      assert lo[0] as real < p[0] <= hi[0] as real;
      assert lo[1] as real < p[1] <= hi[1] as real;
      assert lo[2] as real < p[2] <= hi[2] as real;
    }
  }
}
