/** The region-size search of `do_levmarq_all_particle_groups`: the memory
    estimate for J over a grouping (`calc_mem_usage`), and the loops that
    shrink or grow the grouping box against `max_mem`. The loops are
    stated over any memory estimate `mem`, so that their behaviour can be
    shown on a simple one; `MemOf` is the estimate the optimiser uses. */
module RegionSize {
  import opened Wrappers
  import opened Numeric
  import opened Grouping

  /** `np.max(map(np.size, groups))`; 0 for no groups (which the caller
      rejects before using it). */
  function MaxLen(gs: seq<seq<nat>>): (m: nat)
    ensures forall i :: 0 <= i < |gs| ==> |gs[i]| <= m
    ensures |gs| > 0 ==> exists i :: 0 <= i < |gs| && |gs[i]| == m
  {
    if |gs| == 0 then 0
    else
      var front := MaxLen(gs[..|gs| - 1]);
      var last := |gs[|gs| - 1]|;
      if front < last then last else front
  }

  /** `32 * np.prod(rs + 2 * pad)`: the bytes of J per particle for
      grouping boxes of size rs. */
  function PerParticle(rs: IVec3, pad: int): real
  {
    32.0 * ((rs[0] + 2 * pad) * (rs[1] + 2 * pad) * (rs[2] + 2 * pad)) as real
  }

  /** The bytes of J for `most` particles. */
  function Bytes(most: nat, rs: IVec3, pad: int): real
  {
    most as real * PerParticle(rs, pad)
  }

  /** `calc_mem_usage(rs)`: the largest group's size times the bytes per
      particle. A zero side is rejected by `range`; a grouping with no
      group fails in `np.max`. */
  function MemUsage(pos: seq<Vec3>, rs: IVec3, bounds: Option<(IVec3, IVec3)>, shape: IVec3, pad: int)
    : (r: Result<real>)
    ensures r.Err? <==> rs[0] == 0 || rs[1] == 0 || rs[2] == 0
                        || |GroupsSpec(pos, GridBounds(bounds, shape).0, GridBounds(bounds, shape).1, rs)| == 0
  {
    if rs[0] == 0 || rs[1] == 0 || rs[2] == 0 then Err(ValueError("range() step argument must not be zero"))
    else
      var gs := GroupsSpec(pos, GridBounds(bounds, shape).0, GridBounds(bounds, shape).1, rs);
      if |gs| == 0 then Err(ValueError("zero-size array to reduction operation maximum which has no identity"))
      else Ok(Bytes(MaxLen(gs), rs, pad))
  }

  /** The estimate the optimiser uses, as a function of the box size. */
  function MemOf(pos: seq<Vec3>, bounds: Option<(IVec3, IVec3)>, shape: IVec3, pad: int): IVec3 -> Result<real>
  {
    (rs: IVec3) => MemUsage(pos, rs, bounds, shape, pad)
  }

  /** `calc_mem_usage`: groups the particles and takes the largest group. */
  method CalcMemUsage(pos: seq<Vec3>, rs: IVec3, bounds: Option<(IVec3, IVec3)>, shape: IVec3, pad: int)
    returns (r: Result<real>)
    ensures r == MemUsage(pos, rs, bounds, shape, pad)
  {
    var grouped := SeparateParticlesIntoGroups(pos, rs, bounds, shape);
    if grouped.Err? {
      return Err(grouped.failure);
    }
    var groups := grouped.value;
    if |groups| == 0 {
      return Err(ValueError("zero-size array to reduction operation maximum which has no identity"));
    }
    var most := LargestGroup(groups);
    return Ok(Bytes(most, rs, pad));
  }

  /** `np.max(map(np.size, groups))` as a loop. */
  method LargestGroup(groups: seq<seq<nat>>) returns (most: nat)
    ensures most == MaxLen(groups)
  {
    most := 0;
    for i := 0 to |groups|
      invariant most == MaxLen(groups[..i])
    {
      assert groups[..i + 1][..i] == groups[..i];
      if most < |groups[i]| {
        most := |groups[i]|;
      }
    }
    assert groups[..|groups|] == groups;
  }

  // ---------------------------------------------------------------------
  // Box sizes

  predicate AnyAbove2(rs: IVec3)
  {
    rs[0] > 2 || rs[1] > 2 || rs[2] > 2
  }

  predicate AllBelow(rs: IVec3, shape: IVec3)
  {
    rs[0] < shape[0] && rs[1] < shape[1] && rs[2] < shape[2]
  }

  /** `rs - 1` and `rs + 1` on every side. */
  function Dec(rs: IVec3): IVec3 { [rs[0] - 1, rs[1] - 1, rs[2] - 1] }
  function Inc(rs: IVec3): IVec3 { [rs[0] + 1, rs[1] + 1, rs[2] + 1] }

  /** How far the largest side is above 2. */
  function Excess(rs: IVec3): nat
  {
    var m := IMax(rs[0], IMax(rs[1], rs[2]));
    if m > 2 then m - 2 else 0
  }

  /** How far the side closest to the image extent is below it. */
  function Room(rs: IVec3, shape: IVec3): nat
  {
    var m := IMin(shape[0] - rs[0], IMin(shape[1] - rs[1], shape[2] - rs[2]));
    if m > 0 then m else 0
  }

  // ---------------------------------------------------------------------
  // The loops as written: the estimate is only checked for being non-zero

  /** `while calc_mem_usage(rs) and np.any(rs > 2): rs -= 1`. */
  function ShrinkWritten(mem: IVec3 -> Result<real>, rs: IVec3): Result<IVec3>
    decreases Excess(rs)
  {
    var m :- mem(rs);
    if m != 0.0 && AnyAbove2(rs) then ShrinkWritten(mem, Dec(rs)) else Ok(rs)
  }

  /** `while calc_mem_usage(rs) and np.all(rs < shape): rs += 1`. */
  function GrowWritten(mem: IVec3 -> Result<real>, rs: IVec3, shape: IVec3): Result<IVec3>
    decreases Room(rs, shape)
  {
    var m :- mem(rs);
    if m != 0.0 && AllBelow(rs, shape) then GrowWritten(mem, Inc(rs), shape) else Ok(rs)
  }

  /** As written the shrinking loop runs until no side is above 2 (or the
      estimate is zero), whatever `max_mem` is. */
  lemma {:induction false} ShrinkWrittenEnds(mem: IVec3 -> Result<real>, rs: IVec3)
    requires ShrinkWritten(mem, rs).Ok?
    ensures var r := ShrinkWritten(mem, rs).value; !AnyAbove2(r) || mem(r) == Ok(0.0)
    decreases Excess(rs)
  {
    if mem(rs).Ok? && mem(rs).value != 0.0 && AnyAbove2(rs) {
      ShrinkWrittenEnds(mem, Dec(rs));
    }
  }

  /** As written the growing loop runs until a side reaches the image
      extent (or the estimate is zero), whatever `max_mem` is. */
  lemma {:induction false} GrowWrittenEnds(mem: IVec3 -> Result<real>, rs: IVec3, shape: IVec3)
    requires GrowWritten(mem, rs, shape).Ok?
    ensures var r := GrowWritten(mem, rs, shape).value; !AllBelow(r, shape) || mem(r) == Ok(0.0)
    decreases Room(rs, shape)
  {
    if mem(rs).Ok? && mem(rs).value != 0.0 && AllBelow(rs, shape) {
      GrowWrittenEnds(mem, Inc(rs), shape);
    }
  }

  /** The search of `do_levmarq_all_particle_groups` as written. */
  function SearchWritten(mem: IVec3 -> Result<real>, rs: IVec3, shape: IVec3, maxMem: real): Result<IVec3>
  {
    var m :- mem(rs);
    if m > maxMem then ShrinkWritten(mem, rs)
    else
      var g :- GrowWritten(mem, rs, shape);
      Ok(Dec(g))
  }

  // ---------------------------------------------------------------------
  // The loops as intended: the estimate is compared with max_mem

  /** Shrink while the estimate is above `max_mem` and some side is above 2. */
  function ShrinkToBudget(mem: IVec3 -> Result<real>, rs: IVec3, maxMem: real): Result<IVec3>
    decreases Excess(rs)
  {
    var m :- mem(rs);
    if m > maxMem && AnyAbove2(rs) then ShrinkToBudget(mem, Dec(rs), maxMem) else Ok(rs)
  }

  /** Grow while the estimate is within `max_mem` and every side is below
      the image extent. */
  function GrowToBudget(mem: IVec3 -> Result<real>, rs: IVec3, shape: IVec3, maxMem: real): Result<IVec3>
    decreases Room(rs, shape)
  {
    var m :- mem(rs);
    if m <= maxMem && AllBelow(rs, shape) then GrowToBudget(mem, Inc(rs), shape, maxMem) else Ok(rs)
  }

  /** The size is changed by the same amount on every side. */
  predicate Uniform(r: IVec3, rs: IVec3)
  {
    r[0] - rs[0] == r[1] - rs[1] && r[1] - rs[1] == r[2] - rs[2]
  }

  /** The shrinking search stops at the first size whose estimate fits
      `max_mem`, or when no side is above 2; it only ever shrinks, by the
      same amount on every side. */
  lemma {:induction false} ShrinkFits(mem: IVec3 -> Result<real>, rs: IVec3, maxMem: real)
    requires ShrinkToBudget(mem, rs, maxMem).Ok?
    ensures var r := ShrinkToBudget(mem, rs, maxMem).value;
      mem(r).Ok? && (mem(r).value <= maxMem || !AnyAbove2(r)) && Uniform(r, rs) && r[0] <= rs[0]
    decreases Excess(rs)
  {
    if mem(rs).value > maxMem && AnyAbove2(rs) {
      ShrinkFits(mem, Dec(rs), maxMem);
    }
  }

  /** Every size the growing search steps past fits `max_mem`: when it
      grew at all, the size one below where it stopped fits. */
  lemma {:induction false} GrowFits(mem: IVec3 -> Result<real>, rs: IVec3, shape: IVec3, maxMem: real)
    requires GrowToBudget(mem, rs, shape, maxMem).Ok?
    ensures var r := GrowToBudget(mem, rs, shape, maxMem).value;
      Uniform(r, rs) && r[0] >= rs[0]
      && (mem(rs).value <= maxMem && AllBelow(rs, shape) ==> r[0] > rs[0])
      && (r != rs ==> mem(Dec(r)).Ok? && mem(Dec(r)).value <= maxMem && AllBelow(Dec(r), shape))
    decreases Room(rs, shape)
  {
    if mem(rs).value <= maxMem && AllBelow(rs, shape) {
      GrowFits(mem, Inc(rs), shape, maxMem);
      var r := GrowToBudget(mem, Inc(rs), shape, maxMem).value;
      if r == Inc(rs) {
        assert Dec(r) == rs;
      }
    }
  }

  /** The region-size search, corrected: shrink to the first size that
      fits when the starting size is over budget, otherwise grow while
      the size fits and step back one. */
  function RegionSearch(mem: IVec3 -> Result<real>, rs: IVec3, shape: IVec3, maxMem: real): Result<IVec3>
  {
    var m :- mem(rs);
    if m > maxMem then ShrinkToBudget(mem, rs, maxMem)
    else
      var g :- GrowToBudget(mem, rs, shape, maxMem);
      Ok(Dec(g))
  }

  /** The size the corrected search returns fits `max_mem` unless it had
      to stop at sides of 2, or it could not grow at all from a starting
      size already at the image extent. */
  lemma RegionSearchFits(mem: IVec3 -> Result<real>, rs: IVec3, shape: IVec3, maxMem: real)
    requires RegionSearch(mem, rs, shape, maxMem).Ok?
    ensures var r := RegionSearch(mem, rs, shape, maxMem).value;
      Uniform(r, rs)
      && (mem(rs).value > maxMem ==> r[0] <= rs[0] && mem(r).Ok? && (mem(r).value <= maxMem || !AnyAbove2(r)))
      && (mem(rs).value <= maxMem && AllBelow(rs, shape) ==>
            r[0] >= rs[0] && mem(r).Ok? && mem(r).value <= maxMem)
  {
    if mem(rs).value > maxMem {
      ShrinkFits(mem, rs, maxMem);
    } else {
      GrowFits(mem, rs, shape, maxMem);
    }
  }

  // ---------------------------------------------------------------------
  // The two side by side on a simple estimate

  /** An estimate of 32 bytes per voxel of the box, for one particle. */
  function Cube(rs: IVec3): Result<real>
  {
    Ok(32.0 * (rs[0] * rs[1] * rs[2]) as real)
  }

  /** From boxes of 4 with a budget of 864 bytes (a box of 3): the
      estimate 2048 is over budget. As written the search shrinks to
      boxes of 2; corrected it stops at 3, the first size that fits. */
  lemma ShrinkExample()
    ensures Cube([4, 4, 4]) == Ok(2048.0) && Cube([3, 3, 3]) == Ok(864.0)
    ensures SearchWritten(Cube, [4, 4, 4], [10, 10, 10], 864.0) == Ok([2, 2, 2])
    ensures RegionSearch(Cube, [4, 4, 4], [10, 10, 10], 864.0) == Ok([3, 3, 3])
  {
    assert Dec([4, 4, 4]) == [3, 3, 3];
    assert Dec([3, 3, 3]) == [2, 2, 2];
    assert ShrinkWritten(Cube, [2, 2, 2]) == Ok([2, 2, 2]);
    assert ShrinkWritten(Cube, [3, 3, 3]) == Ok([2, 2, 2]);
    assert ShrinkToBudget(Cube, [3, 3, 3], 864.0) == Ok([3, 3, 3]);
  }

  /** From boxes of 2 in a 5-pixel image with the same budget: as written
      the search grows to the image and returns 4 (estimate 2048, over
      budget); corrected it returns 3. */
  lemma GrowExample()
    ensures SearchWritten(Cube, [2, 2, 2], [5, 5, 5], 864.0) == Ok([4, 4, 4])
    ensures Cube([4, 4, 4]) == Ok(2048.0)
    ensures RegionSearch(Cube, [2, 2, 2], [5, 5, 5], 864.0) == Ok([3, 3, 3])
  {
    assert Inc([2, 2, 2]) == [3, 3, 3];
    assert Inc([3, 3, 3]) == [4, 4, 4];
    assert Inc([4, 4, 4]) == [5, 5, 5];
    assert Dec([5, 5, 5]) == [4, 4, 4];
    assert Dec([4, 4, 4]) == [3, 3, 3];
    assert GrowWritten(Cube, [5, 5, 5], [5, 5, 5]) == Ok([5, 5, 5]);
    assert GrowWritten(Cube, [4, 4, 4], [5, 5, 5]) == Ok([5, 5, 5]);
    assert GrowWritten(Cube, [3, 3, 3], [5, 5, 5]) == Ok([5, 5, 5]);
    assert GrowToBudget(Cube, [4, 4, 4], [5, 5, 5], 864.0) == Ok([4, 4, 4]);
    assert GrowToBudget(Cube, [3, 3, 3], [5, 5, 5], 864.0) == Ok([4, 4, 4]);
  }

  // ---------------------------------------------------------------------
  // The search with the optimiser's estimate

  /** One step of `ShrinkToBudget` once the estimate at rs is known. */
  lemma ShrinkStep(mem: IVec3 -> Result<real>, rs: IVec3, maxMem: real, est: Result<real>)
    requires mem(rs) == est
    ensures est.Err? ==> ShrinkToBudget(mem, rs, maxMem) == Err(est.failure)
    ensures est.Ok? && !(est.value > maxMem && AnyAbove2(rs)) ==> ShrinkToBudget(mem, rs, maxMem) == Ok(rs)
    ensures est.Ok? && est.value > maxMem && AnyAbove2(rs) ==>
              ShrinkToBudget(mem, rs, maxMem) == ShrinkToBudget(mem, Dec(rs), maxMem)
  {
  }

  /** One step of `GrowToBudget` once the estimate at rs is known. */
  lemma GrowStep(mem: IVec3 -> Result<real>, rs: IVec3, shape: IVec3, maxMem: real, est: Result<real>)
    requires mem(rs) == est
    ensures est.Err? ==> GrowToBudget(mem, rs, shape, maxMem) == Err(est.failure)
    ensures est.Ok? && !(est.value <= maxMem && AllBelow(rs, shape)) ==> GrowToBudget(mem, rs, shape, maxMem) == Ok(rs)
    ensures est.Ok? && est.value <= maxMem && AllBelow(rs, shape) ==>
              GrowToBudget(mem, rs, shape, maxMem) == GrowToBudget(mem, Inc(rs), shape, maxMem)
  {
  }

  /** Shrinking a box with a side above 2 lowers its excess. */
  lemma ExcessShrinks(rs: IVec3)
    requires AnyAbove2(rs)
    ensures Excess(Dec(rs)) < Excess(rs)
  {
  }

  /** Growing a box that is below the image extent leaves less room. */
  lemma RoomShrinks(rs: IVec3, shape: IVec3)
    requires AllBelow(rs, shape)
    ensures Room(Inc(rs), shape) < Room(rs, shape)
  {
  }

  /** The shrinking loop of `calc_region_size`, with the comparison
      against `max_mem`. */
  method ShrinkRegion(pos: seq<Vec3>, rs0: IVec3, bounds: Option<(IVec3, IVec3)>, shape: IVec3, pad: int,
                      maxMem: real) returns (r: Result<IVec3>)
    ensures r == ShrinkToBudget(MemOf(pos, bounds, shape, pad), rs0, maxMem)
  {
    ghost var mem := MemOf(pos, bounds, shape, pad);
    var rs := rs0;
    while true
      invariant ShrinkToBudget(mem, rs, maxMem) == ShrinkToBudget(mem, rs0, maxMem)
      decreases Excess(rs)
    {
      var est := CalcMemUsage(pos, rs, bounds, shape, pad);
      ShrinkStep(mem, rs, maxMem, est);
      if est.Err? {
        return Err(est.failure);
      }
      var cur := est.value;
      if !(cur > maxMem && AnyAbove2(rs)) {
        return Ok(rs);
      }
      ExcessShrinks(rs);
      rs := Dec(rs);
    }
  }

  /** The growing loop of `calc_region_size`, with the comparison against
      `max_mem`; it stops one step past the size it keeps. */
  method GrowRegion(pos: seq<Vec3>, rs0: IVec3, bounds: Option<(IVec3, IVec3)>, shape: IVec3, pad: int,
                    maxMem: real) returns (r: Result<IVec3>)
    ensures r == GrowToBudget(MemOf(pos, bounds, shape, pad), rs0, shape, maxMem)
  {
    ghost var mem := MemOf(pos, bounds, shape, pad);
    var rs := rs0;
    while true
      invariant GrowToBudget(mem, rs, shape, maxMem) == GrowToBudget(mem, rs0, shape, maxMem)
      decreases Room(rs, shape)
    {
      var est := CalcMemUsage(pos, rs, bounds, shape, pad);
      GrowStep(mem, rs, shape, maxMem, est);
      if est.Err? {
        return Err(est.failure);
      }
      var cur := est.value;
      if !(cur <= maxMem && AllBelow(rs, shape)) {
        return Ok(rs);
      }
      RoomShrinks(rs, shape);
      rs := Inc(rs);
    }
  }

  /** The `calc_region_size` block with the comparison against `max_mem`
      that the loops evidently intend; every estimate is a fresh grouping
      of the particles. */
  method FindRegionSize(pos: seq<Vec3>, rs0: IVec3, bounds: Option<(IVec3, IVec3)>, shape: IVec3, pad: int,
                        maxMem: real) returns (r: Result<IVec3>)
    ensures r == RegionSearch(MemOf(pos, bounds, shape, pad), rs0, shape, maxMem)
  {
    var m :- CalcMemUsage(pos, rs0, bounds, shape, pad);
    if m > maxMem {
      r := ShrinkRegion(pos, rs0, bounds, shape, pad, maxMem);
    } else {
      var g :- GrowRegion(pos, rs0, bounds, shape, pad, maxMem);
      r := Ok(Dec(g));
    }
  }
}
