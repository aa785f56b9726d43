/** Integer boxes over the image grid (`cbamf.util.Tile`): the bounding union
    of per-particle tiles and the even-aligned, clipped tile `update_particles`
    redraws. A corner entry may be None (an open side). */
module Tiles {
  import opened Wrappers
  import opened Numeric

  type Corner = c: seq<Option<int>> | |c| == 3 witness [None, None, None]

  datatype Tile = Tile(l: Corner, r: Corner)

  /** Python 2 orders None below every integer; numpy's min/max over object
      arrays follow that order. */
  predicate Py2Le(a: Option<int>, b: Option<int>)
  {
    a.None? || (b.Some? && a.value <= b.value)
  }

  function Py2Min(a: Option<int>, b: Option<int>): Option<int>
  {
    if Py2Le(a, b) then a else b
  }

  function Py2Max(a: Option<int>, b: Option<int>): Option<int>
  {
    if Py2Le(a, b) then b else a
  }

  /** `np.min(corners, axis=0)` along one axis. */
  function MinAlong(cs: seq<Corner>, axis: nat): (m: Option<int>)
    requires |cs| > 0 && axis < 3
    ensures forall k :: 0 <= k < |cs| ==> Py2Le(m, cs[k][axis])
    ensures exists k :: 0 <= k < |cs| && m == cs[k][axis]
  {
    if |cs| == 1 then cs[0][axis]
    else
      var rest := MinAlong(cs[..|cs| - 1], axis);
      assert forall k :: 0 <= k < |cs| - 1 ==> cs[..|cs| - 1][k] == cs[k];
      Py2Min(rest, cs[|cs| - 1][axis])
  }

  /** `np.max(corners, axis=0)` along one axis. */
  function MaxAlong(cs: seq<Corner>, axis: nat): (m: Option<int>)
    requires |cs| > 0 && axis < 3
    ensures forall k :: 0 <= k < |cs| ==> Py2Le(cs[k][axis], m)
    ensures exists k :: 0 <= k < |cs| && m == cs[k][axis]
  {
    if |cs| == 1 then cs[0][axis]
    else
      var rest := MaxAlong(cs[..|cs| - 1], axis);
      assert forall k :: 0 <= k < |cs| - 1 ==> cs[..|cs| - 1][k] == cs[k];
      Py2Max(rest, cs[|cs| - 1][axis])
  }

  function MinCorner(cs: seq<Corner>): (c: Corner)
    requires |cs| > 0
    ensures forall i :: 0 <= i < 3 ==> c[i] == MinAlong(cs, i)
  {
    seq(3, i requires 0 <= i < 3 => MinAlong(cs, i))
  }

  function MaxCorner(cs: seq<Corner>): (c: Corner)
    requires |cs| > 0
    ensures forall i :: 0 <= i < 3 ==> c[i] == MaxAlong(cs, i)
  {
    seq(3, i requires 0 <= i < 3 => MaxAlong(cs, i))
  }

  /** t contains u: its left corner is below and its right corner above. */
  predicate Encloses(t: Tile, u: Tile)
  {
    forall i :: 0 <= i < 3 ==> Py2Le(t.l[i], u.l[i]) && Py2Le(u.r[i], t.r[i])
  }

  function Lefts(ts: seq<Tile>): (cs: seq<Corner>)
    ensures |cs| == |ts| && forall k :: 0 <= k < |ts| ==> cs[k] == ts[k].l
  {
    seq(|ts|, k requires 0 <= k < |ts| => ts[k].l)
  }

  function Rights(ts: seq<Tile>): (cs: seq<Corner>)
    ensures |cs| == |ts| && forall k :: 0 <= k < |ts| ==> cs[k] == ts[k].r
  {
    seq(|ts|, k requires 0 <= k < |ts| => ts[k].r)
  }

  /** The bounding union of tiles (the last step of
      `get_tile_from_multiple_particle_change`). */
  function Union(ts: seq<Tile>): (u: Tile)
    requires |ts| > 0
  {
    Tile(MinCorner(Lefts(ts)), MaxCorner(Rights(ts)))
  }

  /** The union encloses every tile. */
  lemma UnionEncloses(ts: seq<Tile>, k: nat)
    requires k < |ts|
    ensures Encloses(Union(ts), ts[k])
  {
    var u := Union(ts);
    forall i | 0 <= i < 3 ensures Py2Le(u.l[i], ts[k].l[i]) && Py2Le(ts[k].r[i], u.r[i]) {
      assert Lefts(ts)[k] == ts[k].l && Rights(ts)[k] == ts[k].r;
    }
  }

  /** Every box that encloses all the tiles encloses their union: each corner
      entry of the union is attained by one of the tiles. */
  lemma UnionIsLeast(ts: seq<Tile>, t: Tile)
    requires |ts| > 0
    requires forall k :: 0 <= k < |ts| ==> Encloses(t, ts[k])
    ensures Encloses(t, Union(ts))
  {
    var u := Union(ts);
    forall i | 0 <= i < 3 ensures Py2Le(t.l[i], u.l[i]) && Py2Le(u.r[i], t.r[i]) {
      var ls, rs := Lefts(ts), Rights(ts);
      assert u.l[i] == MinAlong(ls, i) && u.r[i] == MaxAlong(rs, i);
      var kl :| 0 <= kl < |ls| && MinAlong(ls, i) == ls[kl][i];
      var kr :| 0 <= kr < |rs| && MaxAlong(rs, i) == rs[kr][i];
      assert Py2Le(t.l[i], ts[kl].l[i]);
      assert Py2Le(ts[kr].r[i], t.r[i]);
    }
  }

  /** `clean_up_tile`: open entries become 0 on the left and the image extent
      on the right. */
  function CleanUp(c: Corner, fill: IVec3): (r: IVec3)
    ensures forall i :: 0 <= i < 3 ==> r[i] == (if c[i].None? then fill[i] else c[i].value)
  {
    seq(3, i requires 0 <= i < 3 => if c[i].None? then fill[i] else c[i].value)
  }

  /** `x += x % 2`: rounds up to the next even integer. */
  function RoundUpEven(x: int): (r: int)
    ensures r % 2 == 0 && x <= r <= x + 1
  {
    x + x % 2
  }

  function IMinAlong(cs: seq<IVec3>, axis: nat): (m: int)
    requires |cs| > 0 && axis < 3
    ensures forall k :: 0 <= k < |cs| ==> m <= cs[k][axis]
    ensures exists k :: 0 <= k < |cs| && m == cs[k][axis]
  {
    if |cs| == 1 then cs[0][axis]
    else
      var rest := IMinAlong(cs[..|cs| - 1], axis);
      assert forall k :: 0 <= k < |cs| - 1 ==> cs[..|cs| - 1][k] == cs[k];
      IMin(rest, cs[|cs| - 1][axis])
  }

  function IMaxAlong(cs: seq<IVec3>, axis: nat): (m: int)
    requires |cs| > 0 && axis < 3
    ensures forall k :: 0 <= k < |cs| ==> cs[k][axis] <= m
    ensures exists k :: 0 <= k < |cs| && m == cs[k][axis]
  {
    if |cs| == 1 then cs[0][axis]
    else
      var rest := IMaxAlong(cs[..|cs| - 1], axis);
      assert forall k :: 0 <= k < |cs| - 1 ==> cs[..|cs| - 1][k] == cs[k];
      IMax(rest, cs[|cs| - 1][axis])
  }

  /** Left corner of the redrawn tile before clipping: one voxel of margin,
      rounded up to even. */
  function PaddedLeft(allLeft: seq<IVec3>): IVec3
    requires |allLeft| > 0
  {
    seq(3, i requires 0 <= i < 3 => RoundUpEven(IMinAlong(allLeft, i) - 1))
  }

  /** Right corner of the redrawn tile before clipping. */
  function PaddedRight(allRight: seq<IVec3>): IVec3
    requires |allRight| > 0
  {
    seq(3, i requires 0 <= i < 3 => RoundUpEven(IMaxAlong(allRight, i) + 1))
  }

  function ClipTo(c: IVec3, shape: IVec3): IVec3
  {
    seq(3, i requires 0 <= i < 3 => IClip(c[i], 0, shape[i]))
  }

  function Closed(l: IVec3, r: IVec3): Tile
  {
    Tile(seq(3, i requires 0 <= i < 3 => Some(l[i])), seq(3, i requires 0 <= i < 3 => Some(r[i])))
  }

  /** The outer and inner tiles `update_particles` hands to `_update_tile`. */
  datatype Redraw = Redraw(outer: Tile, inner: Tile)

  /** Tiles redrawn after a batch of particle updates (cbamf/opt/optimize.py
      757-769): the padded union clipped to the image, and the same box
      shrunk by one voxel per side. */
  function RedrawTiles(allLeft: seq<IVec3>, allRight: seq<IVec3>, shape: IVec3): (t: Redraw)
    requires |allLeft| > 0 && |allRight| > 0
    ensures forall i :: 0 <= i < 3 ==> t.outer.l[i].Some? && t.outer.r[i].Some?
    ensures forall i :: 0 <= i < 3 ==>
      t.inner.l[i] == Some(t.outer.l[i].value + 1) && t.inner.r[i] == Some(t.outer.r[i].value - 1)
    ensures forall i :: 0 <= i < 3 && 0 <= shape[i] ==>
      0 <= t.outer.l[i].value <= shape[i] && 0 <= t.outer.r[i].value <= shape[i]
  {
    var left := ClipTo(PaddedLeft(allLeft), shape);
    var right := ClipTo(PaddedRight(allRight), shape);
    Redraw(Closed(left, right),
           Closed(seq(3, i requires 0 <= i < 3 => left[i] + 1), seq(3, i requires 0 <= i < 3 => right[i] - 1)))
  }

  /** Before clipping the redrawn box is even-aligned and covers every
      per-particle box with at least one voxel to spare on the right. */
  lemma {:induction false} PaddedBoxCovers(allLeft: seq<IVec3>, allRight: seq<IVec3>, k: nat, i: nat)
    requires |allLeft| > 0 && |allRight| > 0 && i < 3
    ensures PaddedLeft(allLeft)[i] % 2 == 0 && PaddedRight(allRight)[i] % 2 == 0
    ensures k < |allLeft| ==> PaddedLeft(allLeft)[i] <= allLeft[k][i]
    ensures k < |allRight| ==> PaddedRight(allRight)[i] >= allRight[k][i] + 1
    ensures PaddedLeft(allLeft)[i] <= IMinAlong(allLeft, i)
    ensures PaddedRight(allRight)[i] >= IMaxAlong(allRight, i) + 1
  {
  }
}
