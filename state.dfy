/** The fitted state `s` as the optimizer sees it: a flat parameter vector
    (`s.state`), the named parameter blocks, the particle layout inside the
    vector, and the image quantities the optimizer reads. How the image is
    rendered from the parameters is not modelled: the error, the residual
    image and the changed-region tile are fixed functions of the
    parameters. The methods record the calls into the rendering machinery
    in a log. */
module States {
  import opened Wrappers
  import opened Numeric
  import opened Masks
  import opened Tiles

  /** One particle: position, radius and type. */
  datatype Particle = Particle(pos: Vec3, rad: real, typ: real)

  /** A call the optimizer makes into the rendering machinery. */
  datatype Event =
    | Pushed(name: string)     // the sub-model `name` received new values
    | Initialized              // `s.obj.initialize(s.zscale)`
    | TileUpdated(tile: Tile)  // `s._update_tile(...)` redrew a region
    | ResetCalled              // `s.reset()`

  /** The parameter names `update_state_global` supports. */
  const Supported: set<string> :=
    {"pos", "rad", "typ", "psf", "ilm", "bkg", "off", "slab", "zscale", "sigma", "rscale"}

  /** Indices of particle a's parameters in the flat vector of a state with
      n particles: positions first (3 per particle), then radii, then types. */
  function PosIndex(a: nat, k: nat): nat { 3 * a + k }
  function RadIndex(n: nat, a: nat): nat { 3 * n + a }
  function TypIndex(n: nat, a: nat): nat { 4 * n + a }

  function PosMask(n: nat, size: nat): seq<bool> { seq(size, i => i < 3 * n) }
  function RadMask(n: nat, size: nat): seq<bool> { seq(size, i => 3 * n <= i < 4 * n) }
  function TypMask(n: nat, size: nat): seq<bool> { seq(size, i => 4 * n <= i < 5 * n) }

  /** Particle a as stored in v. */
  function ParticleAt(v: seq<real>, n: nat, a: nat): Particle
    requires a < n && 5 * n <= |v|
  {
    Particle([v[PosIndex(a, 0)], v[PosIndex(a, 1)], v[PosIndex(a, 2)]], v[RadIndex(n, a)], v[TypIndex(n, a)])
  }

  /** Entry i of the vector belongs to particle a. */
  predicate OfParticle(n: nat, a: nat, i: nat)
  {
    i == PosIndex(a, 0) || i == PosIndex(a, 1) || i == PosIndex(a, 2) || i == RadIndex(n, a) || i == TypIndex(n, a)
  }

  /** v with particle a overwritten by p and every other entry kept. */
  function SetParticle(v: seq<real>, n: nat, a: nat, p: Particle): (w: seq<real>)
    requires a < n && 5 * n <= |v|
    ensures |w| == |v| && ParticleAt(w, n, a) == p
    ensures forall i :: 0 <= i < |v| && !OfParticle(n, a, i) ==> w[i] == v[i]
  {
    v[PosIndex(a, 0) := p.pos[0]][PosIndex(a, 1) := p.pos[1]][PosIndex(a, 2) := p.pos[2]]
     [RadIndex(n, a) := p.rad][TypIndex(n, a) := p.typ]
  }

  /** Different particles occupy different entries: setting one leaves the
      others as they were. */
  lemma SetParticleOthers(v: seq<real>, n: nat, a: nat, b: nat, p: Particle)
    requires a < n && b < n && a != b && 5 * n <= |v|
    ensures ParticleAt(SetParticle(v, n, a, p), n, b) == ParticleAt(v, n, b)
  {
    var w := SetParticle(v, n, a, p);
    assert w[PosIndex(b, 0)] == v[PosIndex(b, 0)];
    assert w[PosIndex(b, 1)] == v[PosIndex(b, 1)];
    assert w[PosIndex(b, 2)] == v[PosIndex(b, 2)];
  }

  /** The particles stored in v, in index order. */
  function ParticlesOf(v: seq<real>, n: nat): (ps: seq<Particle>)
    requires 5 * n <= |v|
    ensures |ps| == n && forall a :: 0 <= a < n ==> ps[a] == ParticleAt(v, n, a)
  {
    seq(n, a requires 0 <= a < n => ParticleAt(v, n, a))
  }

  /** The entries after the particle blocks (the other sub-models). */
  function Others(v: seq<real>, n: nat): seq<real>
    requires 5 * n <= |v|
  {
    v[5 * n..]
  }

  /** Setting particle a replaces entry a of the particle list and keeps
      the other sub-models' entries. */
  lemma SetParticleAbstract(v: seq<real>, n: nat, a: nat, p: Particle)
    requires a < n && 5 * n <= |v|
    ensures ParticlesOf(SetParticle(v, n, a, p), n) == ParticlesOf(v, n)[a := p]
    ensures Others(SetParticle(v, n, a, p), n) == Others(v, n)
  {
    var w := SetParticle(v, n, a, p);
    forall b | 0 <= b < n ensures ParticlesOf(w, n)[b] == ParticlesOf(v, n)[a := p][b] {
      if b != a {
        SetParticleOthers(v, n, a, b, p);
      }
    }
    forall i | 0 <= i < |v| - 5 * n ensures Others(w, n)[i] == Others(v, n)[i] {
      assert !OfParticle(n, a, 5 * n + i);
    }
  }

  /** A vector is determined by its particles and its other entries. */
  lemma SameParticlesAndOthers(v: seq<real>, w: seq<real>, n: nat)
    requires 5 * n <= |v| && |w| == |v|
    requires ParticlesOf(v, n) == ParticlesOf(w, n) && Others(v, n) == Others(w, n)
    ensures v == w
  {
    forall i | 0 <= i < |v| ensures v[i] == w[i] {
      if i < 3 * n {
        var a := i / 3;
        assert ParticleAt(v, n, a) == ParticleAt(w, n, a);
        assert i == PosIndex(a, i % 3);
        assert ParticleAt(v, n, a).pos[i % 3] == v[i];
        assert ParticleAt(w, n, a).pos[i % 3] == w[i];
      } else if i < 4 * n {
        assert ParticleAt(v, n, i - 3 * n) == ParticleAt(w, n, i - 3 * n);
      } else if i < 5 * n {
        assert ParticleAt(v, n, i - 4 * n) == ParticleAt(w, n, i - 4 * n);
      } else {
        assert Others(v, n)[i - 5 * n] == Others(w, n)[i - 5 * n];
      }
    }
  }

  /** Writing back a particle's own values changes nothing. */
  lemma SetParticleSame(v: seq<real>, n: nat, a: nat)
    requires a < n && 5 * n <= |v|
    ensures SetParticle(v, n, a, ParticleAt(v, n, a)) == v
  {
  }

  class State {
    /** `s.state`, the flat parameter vector. */
    var vec: seq<real>
    /** Calls into the rendering machinery so far. */
    var log: seq<Event>

    /** Number of parameters and of particles. */
    const size: nat
    const n: nat
    /** `s.image.shape` and `s.pad`. */
    const shape: IVec3
    const pad: int
    /** `set(s.param_order)` and `s.create_block(name)`. */
    const paramOrder: set<string>
    const blockOf: map<string, seq<bool>>
    /** `get_err(s)`, the summed squared residual, as a function of the parameters. */
    const err: seq<real> -> real
    /** `s.get_difference_image()` flattened over the inner region (npix pixels). */
    const npix: nat
    const residual: seq<real> -> seq<real>
    /** `get_slicered_difference(s, tile.slicer, mask)`: the masked residual
        inside a tile; how many pixels it holds depends on the tile alone. */
    const sliced: (seq<real>, Tile) -> seq<real>
    const slicedLen: Tile -> nat
    /** `s._tile_from_particle_change(...)[0]`: the region a particle change redraws. */
    const tileOf: (Particle, Particle) -> Tile

    /** The fixed shape of the state: the particle blocks fit in the
        vector, and the image functions return images of a fixed size. */
    ghost predicate Layout()
    {
      5 * n <= size
      && (forall v :: |residual(v)| == npix)
      && (forall v, t :: |sliced(v, t)| == slicedLen(t))
    }

    /** The named parameter blocks: every supported name has a block over
        the whole vector, the blocks cover every parameter, and the
        particle blocks follow the particle layout. */
    ghost predicate Blocks()
    {
      (forall name :: name in Supported ==> name in blockOf && |blockOf[name]| == size)
      && (forall i :: 0 <= i < size ==> Covered(blockOf, i))
      && blockOf["pos"] == PosMask(n, size)
      && blockOf["rad"] == RadMask(n, size)
      && blockOf["typ"] == TypMask(n, size)
    }

    ghost predicate Valid()
      reads this
    {
      |vec| == size && Layout()
    }

    constructor (vec0: seq<real>, n: nat, shape: IVec3, pad: int, paramOrder: set<string>,
                 blockOf: map<string, seq<bool>>, err: seq<real> -> real, npix: nat,
                 residual: seq<real> -> seq<real>, sliced: (seq<real>, Tile) -> seq<real>,
                 slicedLen: Tile -> nat, tileOf: (Particle, Particle) -> Tile)
      requires 5 * n <= |vec0|
      requires forall name :: name in Supported ==> name in blockOf && |blockOf[name]| == |vec0|
      requires forall i :: 0 <= i < |vec0| ==> Covered(blockOf, i)
      requires "pos" in blockOf && blockOf["pos"] == PosMask(n, |vec0|)
      requires "rad" in blockOf && blockOf["rad"] == RadMask(n, |vec0|)
      requires "typ" in blockOf && blockOf["typ"] == TypMask(n, |vec0|)
      requires forall v :: |residual(v)| == npix
      requires forall v, t :: |sliced(v, t)| == slicedLen(t)
      ensures Valid() && Blocks() && vec == vec0 && log == []
    {
      this.vec := vec0;
      this.log := [];
      this.size := |vec0|;
      this.n := n;
      this.shape := shape;
      this.pad := pad;
      this.paramOrder := paramOrder;
      this.blockOf := blockOf;
      this.err := err;
      this.npix := npix;
      this.residual := residual;
      this.sliced := sliced;
      this.slicedLen := slicedLen;
      this.tileOf := tileOf;
    }

    /** `get_err(s)`. */
    function Err(): real
      reads this
    {
      err(vec)
    }

    /** `s.update(b, x)`: the entries of block b take the values x. */
    method Update(b: seq<bool>, x: seq<real>)
      requires Valid() && |b| == size && |x| == Count(b)
      modifies this
      ensures Valid() && vec == Replace(old(vec), b, x) && log == old(log)
    {
      vec := Replace(vec, b, x);
    }

    /** The sub-model `name` takes the values x for its block, which
        `_build_state` then copies back into the parameter vector. */
    method Push(name: string, x: seq<real>)
      requires Valid() && Blocks() && name in Supported && |x| == Count(blockOf[name])
      modifies this
      ensures Valid() && vec == Replace(old(vec), blockOf[name], x)
      ensures log == old(log) + [Pushed(name)]
    {
      vec := Replace(vec, blockOf[name], x);
      log := log + [Pushed(name)];
    }

    /** `s.obj.initialize(s.zscale)`: re-renders the particles from the
        parameters already pushed. */
    method Initialize()
      requires Valid()
      modifies this
      ensures Valid() && vec == old(vec) && log == old(log) + [Initialized]
    {
      log := log + [Initialized];
    }

    /** `s.obj.update(particle, p1, r1, t1, ...)` followed by `_build_state`. */
    method SetParticleTo(a: nat, p: Particle)
      requires Valid() && a < n
      modifies this
      ensures Valid() && vec == SetParticle(old(vec), n, a, p) && log == old(log)
    {
      vec := SetParticle(vec, n, a, p);
    }

    /** `s._update_tile(...)`: redraws the model image inside the tile. */
    method UpdateTile(t: Tile)
      requires Valid()
      modifies this
      ensures Valid() && vec == old(vec) && log == old(log) + [TileUpdated(t)]
    {
      log := log + [TileUpdated(t)];
    }

    /** `s.reset()`: rebuilds the model image from the current parameters,
        which it leaves as they are. */
    method Reset()
      requires Valid()
      modifies this
      ensures Valid() && vec == old(vec) && log == old(log) + [ResetCalled]
    {
      log := log + [ResetCalled];
    }
  }

  /** Some supported block frees parameter i. */
  ghost predicate Covered(blockOf: map<string, seq<bool>>, i: nat)
  {
    exists name :: name in Supported && name in blockOf && i < |blockOf[name]| && blockOf[name][i]
  }
}
