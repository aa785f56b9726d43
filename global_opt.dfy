/** The global Levenberg-Marquardt fitter over an arbitrary parameter block:
    `update_state_global`, `eval_deriv`, `calculate_J_approx`,
    `get_rand_Japprox` and `do_levmarq` with its inner run. */
module GlobalOpt {
  import opened Wrappers
  import opened Numeric
  import opened Masks
  import opened States
  import opened NormalEq
  import opened Damping
  import opened PixelBudget

  // ---------------------------------------------------------------------
  // update_state_global

  /** The push of one named block, made only when it shares an entry with
      the block being updated. */
  function PushEvent(s: State, name: string, block: seq<bool>): seq<Event>
    requires s.Layout() && s.Blocks() && name in Supported && |block| == s.size
  {
    if Intersects(s.blockOf[name], block) then [Pushed(name)] else []
  }

  /** The calls `update_state_global` makes, in order: zscale first, since
      it changes how particles are drawn; then the particle blocks and the
      re-initialization of the particles, made whenever the state has any
      particle parameter, whatever the block; then the remaining blocks. */
  function GlobalEvents(s: State, block: seq<bool>): seq<Event>
    requires s.Layout() && s.Blocks() && |block| == s.size
  {
    ParticleEvents(s, block) + FieldEvents(s, block)
  }

  /** The zscale and particle sections and the re-initialization. */
  function ParticleEvents(s: State, block: seq<bool>): seq<Event>
    requires s.Layout() && s.Blocks() && |block| == s.size
  {
    PushEvent(s, "zscale", block) + PushEvent(s, "pos", block) + PushEvent(s, "rad", block)
    + PushEvent(s, "typ", block) + (if s.n > 0 then [Initialized] else [])
  }

  /** The remaining sections, in source order. */
  function FieldEvents(s: State, block: seq<bool>): seq<Event>
    requires s.Layout() && s.Blocks() && |block| == s.size
  {
    PushEvent(s, "psf", block) + PushEvent(s, "ilm", block) + PushEvent(s, "bkg", block)
    + PushEvent(s, "off", block) + PushEvent(s, "slab", block) + PushEvent(s, "rscale", block)
    + PushEvent(s, "sigma", block)
  }

  /** Block x has been pushed and holds entry i. */
  ghost predicate Touched(s: State, done: set<string>, block: seq<bool>, i: nat)
    requires s.Layout() && s.Blocks() && |block| == s.size
  {
    exists x :: x in done && x in Supported && Intersects(s.blockOf[x], block) && i < s.size && s.blockOf[x][i]
  }

  /** After pushing the blocks in `done`, every entry of a pushed block
      holds the new value and every other entry the original one. */
  ghost predicate Progress(s: State, v: seq<real>, orig: seq<real>, newState: seq<real>,
                           block: seq<bool>, done: set<string>)
    requires s.Layout() && s.Blocks() && |block| == s.size
  {
    |v| == s.size && |orig| == s.size && |newState| == s.size
    && forall i :: 0 <= i < s.size ==> v[i] == (if Touched(s, done, block, i) then newState[i] else orig[i])
  }

  /** One `if (bX & block).sum() > 0:` section: push `new_state[bX]`. */
  method PushIfTouched(s: State, name: string, block: seq<bool>, newState: seq<real>,
                       ghost orig: seq<real>, ghost done: set<string>, ghost log0: seq<Event>, ghost pre: seq<Event>)
    requires s.Valid() && s.Blocks() && name in Supported && |block| == s.size && |newState| == s.size
    requires Progress(s, s.vec, orig, newState, block, done) && s.log == log0 + pre
    modifies s
    ensures s.Valid() && Progress(s, s.vec, orig, newState, block, done + {name})
    ensures s.log == log0 + (pre + PushEvent(s, name, block))
  {
    var bx := s.blockOf[name];
    if Intersects(bx, block) {
      ghost var v := s.vec;
      s.Push(name, Select(newState, bx));
      forall i | 0 <= i < s.size
        ensures s.vec[i] == (if Touched(s, done + {name}, block, i) then newState[i] else orig[i])
      {
        ReplaceWithSelect(v, bx, newState, i);
        if bx[i] {
          assert Touched(s, done + {name}, block, i);
        } else {
          assert Touched(s, done + {name}, block, i) <==> Touched(s, done, block, i);
        }
      }
    } else {
      forall i | 0 <= i < s.size
        ensures Touched(s, done + {name}, block, i) <==> Touched(s, done, block, i)
      {
      }
    }
  }

  /** When every supported block is pushed, the vector is the new state:
      the blocks cover every parameter, and an entry outside `block` has the
      same old and new value. */
  lemma ProgressComplete(s: State, v: seq<real>, orig: seq<real>, block: seq<bool>, data: seq<real>)
    requires s.Layout() && s.Blocks() && |block| == s.size && |orig| == s.size && |data| == Count(block)
    requires Progress(s, v, orig, Replace(orig, block, data), block, Supported)
    ensures v == Replace(orig, block, data)
  {
    var newState := Replace(orig, block, data);
    forall i | 0 <= i < s.size
      ensures v[i] == newState[i]
    {
      assert Covered(s.blockOf, i);
      var x :| x in Supported && x in s.blockOf && i < |s.blockOf[x]| && s.blockOf[x][i];
      if block[i] {
        assert Intersects(s.blockOf[x], block);
        assert Touched(s, Supported, block, i);
      }
    }
  }

  /** `np.any(bpos | brad | btyp)` holds exactly when the state has particles. */
  lemma AnyParticleEntry(s: State)
    requires s.Layout() && s.Blocks()
    ensures (exists i :: 0 <= i < s.size && (s.blockOf["pos"][i] || s.blockOf["rad"][i] || s.blockOf["typ"][i]))
        <==> s.n > 0
  {
    if s.n > 0 {
      assert s.blockOf["pos"][0];
    }
  }

  /** The first sections of `update_state_global`: zscale, then the
      particle blocks, then the re-initialization of the particles. */
  method PushParticleSections(s: State, block: seq<bool>, newState: seq<real>, ghost orig: seq<real>)
    requires s.Valid() && s.Blocks() && |block| == s.size && |newState| == s.size
    requires Progress(s, s.vec, orig, newState, block, {})
    modifies s
    ensures s.Valid() && Progress(s, s.vec, orig, newState, block, {"zscale", "pos", "rad", "typ"})
    ensures s.log == old(s.log) + ParticleEvents(s, block)
  {
    ghost var log0 := s.log;
    ghost var pre: seq<Event> := [];
    PushIfTouched(s, "zscale", block, newState, orig, {}, log0, pre);
    pre := pre + PushEvent(s, "zscale", block);
    PushIfTouched(s, "pos", block, newState, orig, {"zscale"}, log0, pre);
    pre := pre + PushEvent(s, "pos", block);
    PushIfTouched(s, "rad", block, newState, orig, {"zscale", "pos"}, log0, pre);
    pre := pre + PushEvent(s, "rad", block);
    PushIfTouched(s, "typ", block, newState, orig, {"zscale", "pos", "rad"}, log0, pre);
    pre := pre + PushEvent(s, "typ", block);
    AnyParticleEntry(s);
    if exists i :: 0 <= i < s.size && (s.blockOf["pos"][i] || s.blockOf["rad"][i] || s.blockOf["typ"][i]) {
      s.Initialize();
      assert s.log == log0 + (pre + [Initialized]);
    }
    assert [] + PushEvent(s, "zscale", block) == PushEvent(s, "zscale", block);
  }

  /** The remaining sections, in source order. */
  method PushFieldSections(s: State, block: seq<bool>, newState: seq<real>, ghost orig: seq<real>)
    requires s.Valid() && s.Blocks() && |block| == s.size && |newState| == s.size
    requires Progress(s, s.vec, orig, newState, block, {"zscale", "pos", "rad", "typ"})
    modifies s
    ensures s.Valid() && Progress(s, s.vec, orig, newState, block, Supported)
    ensures s.log == old(s.log) + FieldEvents(s, block)
  {
    var done := {"zscale", "pos", "rad", "typ"};
    ghost var log0 := s.log;
    ghost var pre: seq<Event> := [];
    PushIfTouched(s, "psf", block, newState, orig, done, log0, pre);
    pre := pre + PushEvent(s, "psf", block);
    PushIfTouched(s, "ilm", block, newState, orig, done + {"psf"}, log0, pre);
    pre := pre + PushEvent(s, "ilm", block);
    PushIfTouched(s, "bkg", block, newState, orig, done + {"psf"} + {"ilm"}, log0, pre);
    pre := pre + PushEvent(s, "bkg", block);
    PushIfTouched(s, "off", block, newState, orig, done + {"psf"} + {"ilm"} + {"bkg"}, log0, pre);
    pre := pre + PushEvent(s, "off", block);
    PushIfTouched(s, "slab", block, newState, orig, done + {"psf"} + {"ilm"} + {"bkg"} + {"off"}, log0, pre);
    pre := pre + PushEvent(s, "slab", block);
    PushIfTouched(s, "rscale", block, newState, orig, done + {"psf"} + {"ilm"} + {"bkg"} + {"off"} + {"slab"},
                  log0, pre);
    pre := pre + PushEvent(s, "rscale", block);
    PushIfTouched(s, "sigma", block, newState, orig,
                  done + {"psf"} + {"ilm"} + {"bkg"} + {"off"} + {"slab"} + {"rscale"}, log0, pre);
    assert [] + PushEvent(s, "psf", block) == PushEvent(s, "psf", block);
    assert done + {"psf"} + {"ilm"} + {"bkg"} + {"off"} + {"slab"} + {"rscale"} + {"sigma"} == Supported;
  }

  /** `update_state_global(s, block, data)`: checks the parameter names
      before touching anything, then pushes `new_state[bX]` for each named
      block X that shares an entry with `block`, where new_state is the old
      vector with `new_state[block] = data`. */
  method UpdateStateGlobal(s: State, block: seq<bool>, data: seq<real>) returns (r: Result<()>)
    requires s.Valid() && s.Blocks() && |block| == s.size && |data| == Count(block)
    modifies s
    ensures s.Valid()
    ensures r.Err? <==> s.paramOrder != Supported
    ensures r.Err? ==> r.failure.RuntimeError? && s.vec == old(s.vec) && s.log == old(s.log)
    ensures r.Ok? ==> s.vec == Replace(old(s.vec), block, data)
    ensures r.Ok? ==> s.log == old(s.log) + GlobalEvents(s, block)
  {
    var newState := Replace(s.vec, block, data);
    if s.paramOrder != Supported {
      return Err(RuntimeError("This state has parameters that arent supported!"));
    }
    ghost var orig := s.vec;
    ghost var log0 := s.log;
    assert forall i :: 0 <= i < s.size ==> !Touched(s, {}, block, i);
    assert Progress(s, s.vec, orig, newState, block, {});
    PushParticleSections(s, block, newState, orig);
    ghost var log1 := s.log;
    PushFieldSections(s, block, newState, orig);
    ProgressComplete(s, s.vec, orig, block, data);
    LogAppend(log0, ParticleEvents(s, block), FieldEvents(s, block));
    return Ok(());
  }

  /** Events logged in two runs are logged in one. */
  lemma LogAppend(log0: seq<Event>, first: seq<Event>, second: seq<Event>)
    ensures log0 + first + second == log0 + (first + second)
  {
  }

  /** A named block is pushed exactly when it shares an entry with `block`. */
  lemma PushedIffIntersects(s: State, block: seq<bool>, name: string)
    requires s.Layout() && s.Blocks() && |block| == s.size && name in Supported
    ensures Pushed(name) in GlobalEvents(s, block) <==> Intersects(s.blockOf[name], block)
  {
    var e := Pushed(name);
    assert e in GlobalEvents(s, block) <==> e in ParticleEvents(s, block) || e in FieldEvents(s, block);
    ParticlePushed(s, block, name);
    FieldPushed(s, block, name);
    SupportedNames(name);
  }

  /** The names of `Supported`, one by one. */
  lemma SupportedNames(name: string)
    requires name in Supported
    ensures (name == "zscale" || name == "pos" || name == "rad" || name == "typ")
            || (name == "psf" || name == "ilm" || name == "bkg" || name == "off" || name == "slab" || name == "rscale"
                || name == "sigma")
  {
  }

  /** The first sections push `name` when it is zscale or a particle block
      sharing an entry with `block`. */
  lemma ParticlePushed(s: State, block: seq<bool>, name: string)
    requires s.Layout() && s.Blocks() && |block| == s.size && name in Supported
    ensures Pushed(name) in ParticleEvents(s, block) <==>
      (name == "zscale" || name == "pos" || name == "rad" || name == "typ") && Intersects(s.blockOf[name], block)
  {
    var zs, ps, rs, ts := PushEvent(s, "zscale", block), PushEvent(s, "pos", block),
                          PushEvent(s, "rad", block), PushEvent(s, "typ", block);
    var init: seq<Event> := if s.n > 0 then [Initialized] else [];
    var e := Pushed(name);
    assert e in ParticleEvents(s, block) <==> e in zs || e in ps || e in rs || e in ts || e in init;
    PushEventMember(s, "zscale", name, block);
    PushEventMember(s, "pos", name, block);
    PushEventMember(s, "rad", name, block);
    PushEventMember(s, "typ", name, block);
  }

  /** The remaining sections push `name` when it is one of their blocks
      sharing an entry with `block`. */
  lemma FieldPushed(s: State, block: seq<bool>, name: string)
    requires s.Layout() && s.Blocks() && |block| == s.size && name in Supported
    ensures Pushed(name) in FieldEvents(s, block) <==>
      (name == "psf" || name == "ilm" || name == "bkg" || name == "off" || name == "slab" || name == "rscale"
       || name == "sigma") && Intersects(s.blockOf[name], block)
  {
    var fs, ms, bs, os := PushEvent(s, "psf", block), PushEvent(s, "ilm", block),
                          PushEvent(s, "bkg", block), PushEvent(s, "off", block);
    var ls, cs, gs := PushEvent(s, "slab", block), PushEvent(s, "rscale", block), PushEvent(s, "sigma", block);
    var e := Pushed(name);
    assert e in FieldEvents(s, block) <==> e in fs || e in ms || e in bs || e in os || e in ls || e in cs || e in gs;
    PushEventMember(s, "psf", name, block);
    PushEventMember(s, "ilm", name, block);
    PushEventMember(s, "bkg", name, block);
    PushEventMember(s, "off", name, block);
    PushEventMember(s, "slab", name, block);
    PushEventMember(s, "rscale", name, block);
    PushEventMember(s, "sigma", name, block);
  }

  /** Block x's section pushes `name` only when x is `name` and shares an
      entry with `block`. */
  lemma PushEventMember(s: State, x: string, name: string, block: seq<bool>)
    requires s.Layout() && s.Blocks() && |block| == s.size && x in Supported
    ensures Pushed(name) in PushEvent(s, x, block) <==> x == name && Intersects(s.blockOf[x], block)
  {
  }

  /** When the block touches zscale, zscale is pushed before anything else. */
  lemma ZscaleFirst(s: State, block: seq<bool>)
    requires s.Layout() && s.Blocks() && |block| == s.size && Intersects(s.blockOf["zscale"], block)
    ensures GlobalEvents(s, block)[0] == Pushed("zscale")
  {
  }

  /** The particles are re-initialized on every call once the state has a
      particle, even when `block` frees no particle parameter. */
  lemma InitializeIffParticles(s: State, block: seq<bool>)
    requires s.Layout() && s.Blocks() && |block| == s.size
    ensures Initialized in GlobalEvents(s, block) <==> s.n > 0
  {
  }

  // ---------------------------------------------------------------------
  // Finite differences

  /** Where a perturbed parameter is left: back at its value with be_nice,
      else at +dl after the two-point and at -dl after the three-point stencil. */
  function EndOffset(dl: real, beNice: bool, threePt: bool): real
  {
    if beNice then 0.0 else if threePt then -dl else dl
  }

  /** v with the entries of b moved by c: `s.update(b, s.state[b] + c)`. */
  function Nudge(v: seq<real>, b: seq<bool>, c: real): (w: seq<real>)
    requires |v| == |b|
    ensures |w| == |v|
    ensures forall i :: 0 <= i < |v| ==> w[i] == (if b[i] then v[i] + c else v[i])
  {
    var w := Replace(v, b, Shift(Select(v, b), c));
    assert forall i :: 0 <= i < |v| ==> w[i] == (if b[i] then v[i] + c else v[i]) by {
      forall i | 0 <= i < |v| { ShiftInside(v, b, c, i); }
    }
    w
  }

  /** The finite-difference derivative of the residual image along block b. */
  function Stencil(residual: seq<real> -> seq<real>, npix: nat, v: seq<real>, b: seq<bool>,
                   dl: real, threePt: bool): (d: seq<real>)
    requires |v| == |b| && dl != 0.0
    requires forall w :: |residual(w)| == npix
    ensures |d| == npix
  {
    if threePt then Scale(0.5 / dl, Sub(residual(Nudge(v, b, dl)), residual(Nudge(v, b, -dl))))
    else Scale(1.0 / dl, Sub(residual(Nudge(v, b, dl)), residual(v)))
  }

  /** `eval_deriv`: the derivative of the residual along `block` by a two-
      or three-point stencil, leaving the block at its end offset. */
  method EvalDeriv(s: State, block: seq<bool>, dl: real, beNice: bool, threePt: bool)
    returns (deriv: seq<real>)
    requires s.Valid() && |block| == s.size && dl != 0.0
    modifies s
    ensures s.Valid() && s.log == old(s.log)
    ensures deriv == Stencil(s.residual, s.npix, old(s.vec), block, dl, threePt)
    ensures s.vec == Nudge(old(s.vec), block, EndOffset(dl, beNice, threePt))
  {
    var v := s.vec;
    var p0 := Select(v, block);
    var i0: seq<real> := [];
    if !threePt {
      i0 := s.residual(v);
    }
    NudgeZero(v, block);
    MoveBlock(s, block, p0, dl, v, 0.0);
    var i1 := s.residual(s.vec);
    ghost var off: real;
    if threePt {
      MoveBlock(s, block, p0, -dl, v, dl);
      var i2 := s.residual(s.vec);
      deriv := Scale(0.5 / dl, Sub(i1, i2));
      off := -dl;
    } else {
      deriv := Scale(1.0 / dl, Sub(i1, i0));
      off := dl;
    }
    ghost var end := EndOffset(dl, beNice, threePt);
    if beNice {
      MoveBlock(s, block, p0, 0.0, v, off);
      assert end == 0.0;
    } else {
      assert end == off;
    }
  }

  /** `s.update(b, p0 + e)` with p0 the block's values in v, from v nudged
      by c: the state becomes v nudged by e. */
  method MoveBlock(s: State, block: seq<bool>, p0: seq<real>, e: real, ghost v: seq<real>, ghost c: real)
    requires s.Valid() && |block| == s.size && |v| == s.size
    requires p0 == Select(v, block) && s.vec == Nudge(v, block, c)
    modifies s
    ensures s.Valid() && s.log == old(s.log) && s.vec == Nudge(v, block, e)
  {
    s.Update(block, Shift(p0, e));
    NudgeAgain(v, block, c, e);
  }

  /** Nudging from an already nudged vector lands where nudging the original would. */
  lemma NudgeAgain(v: seq<real>, b: seq<bool>, c: real, e: real)
    requires |v| == |b|
    ensures Replace(Nudge(v, b, c), b, Shift(Select(v, b), e)) == Nudge(v, b, e)
  {
    ReplaceIgnoresInside(Nudge(v, b, c), v, b, Shift(Select(v, b), e));
  }

  lemma NudgeZero(v: seq<real>, b: seq<bool>)
    requires |v| == |b|
    ensures Nudge(v, b, 0.0) == v
  {
    var w := Nudge(v, b, 0.0);
    assert forall i :: 0 <= i < |v| ==> w[i] == v[i];
  }

  /** With be_nice the state is exactly as before. */
  lemma NiceDerivRestores(v: seq<real>, b: seq<bool>, dl: real, threePt: bool)
    requires |v| == |b|
    ensures Nudge(v, b, EndOffset(dl, true, threePt)) == v
  {
    NudgeZero(v, b);
  }

  /** Without be_nice a two-point derivative leaves the block at +dl and a
      three-point one at -dl; entries outside the block never move. */
  lemma RudeDerivMoves(v: seq<real>, b: seq<bool>, dl: real, threePt: bool, i: nat)
    requires |v| == |b| && i < |v|
    ensures Nudge(v, b, EndOffset(dl, false, threePt))[i]
         == if !b[i] then v[i] else if threePt then v[i] - dl else v[i] + dl
  {
  }

  /** The state after perturbing the blocks one after another. */
  function NudgeAll(v: seq<real>, blocks: seq<seq<bool>>, c: real): (w: seq<real>)
    requires forall k :: 0 <= k < |blocks| ==> |blocks[k]| == |v|
    ensures |w| == |v|
  {
    if |blocks| == 0 then v else Nudge(NudgeAll(v, blocks[..|blocks| - 1], c), blocks[|blocks| - 1], c)
  }

  /** With `be_nice` the derivatives leave every parameter where it was. */
  lemma {:induction false} NudgeAllZero(v: seq<real>, blocks: seq<seq<bool>>)
    requires forall k :: 0 <= k < |blocks| ==> |blocks[k]| == |v|
    ensures NudgeAll(v, blocks, 0.0) == v
  {
    if |blocks| > 0 {
      NudgeAllZero(v, blocks[..|blocks| - 1]);
      NudgeZero(v, blocks[|blocks| - 1]);
    }
  }

  /** Perturbing blocks inside `block` leaves everything outside it alone. */
  lemma {:induction false} NudgeAllOutside(v: seq<real>, blocks: seq<seq<bool>>, c: real, block: seq<bool>)
    requires |block| == |v|
    requires forall k :: 0 <= k < |blocks| ==> |blocks[k]| == |v| && SubMask(blocks[k], block)
    ensures AgreeOutside(NudgeAll(v, blocks, c), v, block)
  {
    if |blocks| > 0 {
      NudgeAllOutside(v, blocks[..|blocks| - 1], c, block);
    }
  }

  /** Row k of J: the derivative along block k sampled at `inds`, taken
      with blocks 0 to k-1 left at their end offsets. */
  function JRow(residual: seq<real> -> seq<real>, npix: nat, v: seq<real>, blocks: seq<seq<bool>>, k: nat,
                inds: seq<nat>, dl: real, beNice: bool, threePt: bool): (row: seq<real>)
    requires k < |blocks| && dl != 0.0 && forall j :: 0 <= j < |blocks| ==> |blocks[j]| == |v|
    requires (forall w :: |residual(w)| == npix) && forall t :: 0 <= t < |inds| ==> inds[t] < npix
    ensures |row| == |inds|
  {
    Gather(Stencil(residual, npix, NudgeAll(v, blocks[..k], EndOffset(dl, beNice, threePt)), blocks[k], dl, threePt),
           inds)
  }

  /** `calculate_J_approx`: one row per block, the block's derivative
      sampled at `inds`; each block is left at its end offset while the
      next one is differentiated, so row k is taken with the earlier
      blocks at their end offsets. */
  method CalculateJApprox(s: State, blocks: seq<seq<bool>>, inds: seq<nat>, dl: real,
                          beNice: bool, threePt: bool) returns (J: Matrix)
    requires s.Valid() && dl != 0.0
    requires forall k :: 0 <= k < |blocks| ==> |blocks[k]| == s.size
    requires forall k :: 0 <= k < |inds| ==> inds[k] < s.npix
    modifies s
    ensures s.Valid() && s.log == old(s.log)
    ensures |J| == |blocks| && Rows(J, |inds|)
    ensures forall k :: 0 <= k < |blocks| ==>
      J[k] == JRow(s.residual, s.npix, old(s.vec), blocks, k, inds, dl, beNice, threePt)
    ensures s.vec == NudgeAll(old(s.vec), blocks, EndOffset(dl, beNice, threePt))
  {
    J := [];
    ghost var v0 := s.vec;
    for k := 0 to |blocks|
      invariant s.Valid() && s.log == old(s.log)
      invariant |J| == k && Rows(J, |inds|)
      invariant RowsAre(J, s.residual, s.npix, v0, blocks, inds, dl, beNice, threePt)
      invariant s.vec == NudgeAll(v0, blocks[..k], EndOffset(dl, beNice, threePt))
    {
      var row := DerivRow(s, blocks, k, inds, dl, beNice, threePt, v0);
      RowsAreAppend(J, row, s.residual, s.npix, v0, blocks, inds, dl, beNice, threePt);
      J := J + [row];
    }
    assert blocks[..|blocks|] == blocks;
  }

  /** The rows of J are the first |J| rows `calculate_J_approx` computes. */
  ghost predicate RowsAre(J: Matrix, residual: seq<real> -> seq<real>, npix: nat, v: seq<real>,
                          blocks: seq<seq<bool>>, inds: seq<nat>, dl: real, beNice: bool, threePt: bool)
    requires dl != 0.0 && forall j :: 0 <= j < |blocks| ==> |blocks[j]| == |v|
    requires (forall w :: |residual(w)| == npix) && forall t :: 0 <= t < |inds| ==> inds[t] < npix
  {
    |J| <= |blocks| && forall j :: 0 <= j < |J| ==> J[j] == JRow(residual, npix, v, blocks, j, inds, dl, beNice, threePt)
  }

  lemma RowsAreAppend(J: Matrix, row: seq<real>, residual: seq<real> -> seq<real>, npix: nat, v: seq<real>,
                      blocks: seq<seq<bool>>, inds: seq<nat>, dl: real, beNice: bool, threePt: bool)
    requires dl != 0.0 && forall j :: 0 <= j < |blocks| ==> |blocks[j]| == |v|
    requires (forall w :: |residual(w)| == npix) && forall t :: 0 <= t < |inds| ==> inds[t] < npix
    requires RowsAre(J, residual, npix, v, blocks, inds, dl, beNice, threePt) && |J| < |blocks|
    requires row == JRow(residual, npix, v, blocks, |J|, inds, dl, beNice, threePt)
    ensures RowsAre(J + [row], residual, npix, v, blocks, inds, dl, beNice, threePt)
  {
    assert forall j :: 0 <= j < |J| ==> (J + [row])[j] == J[j];
  }

  /** One iteration of `calculate_J_approx`: block k's derivative sampled
      at `inds`, leaving block k at its end offset. */
  method DerivRow(s: State, blocks: seq<seq<bool>>, k: nat, inds: seq<nat>, dl: real, beNice: bool,
                  threePt: bool, ghost v0: seq<real>) returns (row: seq<real>)
    requires s.Valid() && dl != 0.0 && k < |blocks| && |v0| == s.size
    requires forall j :: 0 <= j < |blocks| ==> |blocks[j]| == s.size
    requires forall t :: 0 <= t < |inds| ==> inds[t] < s.npix
    requires s.vec == NudgeAll(v0, blocks[..k], EndOffset(dl, beNice, threePt))
    modifies s
    ensures s.Valid() && s.log == old(s.log)
    ensures row == JRow(s.residual, s.npix, v0, blocks, k, inds, dl, beNice, threePt)
    ensures s.vec == NudgeAll(v0, blocks[..k + 1], EndOffset(dl, beNice, threePt))
  {
    var aDer := EvalDeriv(s, blocks[k], dl, beNice, threePt);
    row := Gather(aDer, inds);
    assert blocks[..k + 1][..k] == blocks[..k];
  }

  /** `np.random.choice(n, size=k, replace=False)`: k distinct pixels below n. */
  ghost predicate DrawShape(draw: (nat, nat) -> seq<nat>)
  {
    forall k: nat, n: nat {:trigger draw(k, n)} :: k < n ==>
      |draw(k, n)| == k
      && (forall t :: 0 <= t < k ==> draw(k, n)[t] < n)
      && (forall t, u :: 0 <= t < u < k ==> draw(k, n)[t] != draw(k, n)[u])
  }

  function AllPixels(n: nat): (inds: seq<nat>)
    ensures |inds| == n && forall t :: 0 <= t < n ==> inds[t] == t
  {
    seq(n, t => t)
  }

  /** `get_rand_Japprox`: J on `num_inds` distinct random pixels of the
      inner image, or on all of them when there are no more than that. */
  method GetRandJapprox(s: State, blocks: seq<seq<bool>>, numInds: int, draw: (nat, nat) -> seq<nat>,
                        dl: real, beNice: bool, threePt: bool) returns (r: Result<(Matrix, seq<nat>)>)
    requires s.Valid() && dl != 0.0 && DrawShape(draw)
    requires forall k :: 0 <= k < |blocks| ==> |blocks[k]| == s.size
    modifies s
    ensures s.Valid() && s.log == old(s.log)
    ensures r.Err? <==> numInds < 0
    ensures r.Err? ==> s.vec == old(s.vec)
    ensures r.Ok? ==>
      var (J, inds) := r.value;
      |inds| == (if numInds < s.npix then numInds else s.npix)
      && (forall t :: 0 <= t < |inds| ==> inds[t] < s.npix)
      && (forall t, u :: 0 <= t < u < |inds| ==> inds[t] != inds[u])
      && |J| == |blocks| && Rows(J, |inds|)
      && (forall k :: 0 <= k < |blocks| ==>
            J[k] == JRow(s.residual, s.npix, old(s.vec), blocks, k, inds, dl, beNice, threePt))
      && s.vec == NudgeAll(old(s.vec), blocks, EndOffset(dl, beNice, threePt))
  {
    var totPix := s.npix;
    var inds: seq<nat>;
    if numInds < totPix {
      if numInds < 0 {
        return Err(ValueError("negative dimensions are not allowed"));
      }
      inds := draw(numInds, totPix);
    } else {
      inds := AllPixels(totPix);
    }
    var J := CalculateJApprox(s, blocks, inds, dl, beNice, threePt);
    return Ok((J, inds));
  }

  // ---------------------------------------------------------------------
  // do_levmarq

  /** The inner run of `do_levmarq`: up to `run_length` further steps with
      the same J, each kept only if it does not raise the error; the first
      step that raises it is undone and ends the run. */
  method DoInternalRun(s: State, block: seq<bool>, J: Matrix, inds: seq<nat>, jtj: Matrix,
                       damp: real, runLength: int, lstsq: Solver) returns (r: Result<()>)
    requires s.Valid() && s.Blocks() && |block| == s.size && SolverShape(lstsq)
    requires |J| == Count(block) && Rows(J, |inds|) && Square(jtj)
    requires forall k :: 0 <= k < |inds| ==> inds[k] < s.npix
    modifies s
    ensures s.Valid()
    ensures r.Ok? ==> s.err(s.vec) <= old(s.err(s.vec)) && AgreeOutside(s.vec, old(s.vec), block)
  {
    var rn := 0;
    while rn < runLength
      invariant s.Valid()
      invariant s.err(s.vec) <= old(s.err(s.vec)) && AgreeOutside(s.vec, old(s.vec), block)
      decreases runLength - rn
    {
      var newGrad := CalcImGrad(J, s.residual(s.vec), inds);
      var p0 := Select(s.vec, block);
      var dnew := FindLMUpdates(jtj, newGrad, damp, lstsq);
      var oldErr := s.err(s.vec);
      ghost var v := s.vec;
      var _ :- UpdateStateGlobal(s, block, Add(p0, dnew));
      ReplaceAgreesOutside(v, block, Add(p0, dnew));
      var newErr := s.err(s.vec);
      if newErr > oldErr {
        var back := UpdateStateGlobal(s, block, p0);
        assert back.Ok?;
        RestoreAfterWrite(v, v, block, Add(p0, dnew));
        break;
      }
      rn := rn + 1;
    }
    return Ok(());
  }

  /** Step 2 of a `do_levmarq` pass: try p0 + d0, then p0 + d1, measuring
      the error after each. The state is left at p0 + d1. */
  method TrySteps(s: State, block: seq<bool>, p0: seq<real>, d0: seq<real>, d1: seq<real>,
                  ghost vStart: seq<real>) returns (r: Result<(real, real)>)
    requires s.Valid() && s.Blocks() && |block| == s.size && |vStart| == s.size
    requires p0 == Select(vStart, block) && |d0| == |p0| && |d1| == |p0|
    requires AgreeOutside(s.vec, vStart, block)
    modifies s
    ensures s.Valid()
    ensures r.Ok? ==> (s.paramOrder == Supported
      && r.value.0 == s.err(Replace(vStart, block, Add(p0, d0)))
      && s.vec == Replace(vStart, block, Add(p0, d1))
      && r.value.1 == s.err(s.vec))
  {
    ghost var vJ := s.vec;
    var _ :- UpdateStateGlobal(s, block, Add(p0, d0));
    ReplaceIgnoresInside(vJ, vStart, block, Add(p0, d0));
    var err0 := s.err(s.vec);
    ghost var v0 := s.vec;
    var second := UpdateStateGlobal(s, block, Add(p0, d1));
    assert second.Ok?;
    ReplaceAgreesOutside(vStart, block, Add(p0, d0));
    ReplaceIgnoresInside(v0, vStart, block, Add(p0, d1));
    var err1 := s.err(s.vec);
    return Ok((err0, err1));
  }

  /** Step 3 of a pass: on a bad pass restore p0; when d0 was the better
      step go back to p0 + d0; otherwise stay at p0 + d1. */
  method Settle(s: State, block: seq<bool>, p0: seq<real>, d0: seq<real>, d1: seq<real>,
                verdict: Verdict, ghost vStart: seq<real>)
    requires s.Valid() && s.Blocks() && |block| == s.size && |vStart| == s.size && s.paramOrder == Supported
    requires p0 == Select(vStart, block) && |d0| == |p0| && |d1| == |p0|
    requires s.vec == Replace(vStart, block, Add(p0, d1))
    modifies s
    ensures s.Valid()
    ensures s.vec == match verdict
      case BadInvert => vStart
      case BadShrink => vStart
      case KeepD0 => Replace(vStart, block, Add(p0, d0))
      case KeepD1 => Replace(vStart, block, Add(p0, d1))
  {
    ReplaceAgreesOutside(vStart, block, Add(p0, d1));
    if verdict.Bad() {
      ghost var v1 := s.vec;
      var back := UpdateStateGlobal(s, block, p0);
      assert back.Ok?;
      ReplaceIgnoresInside(v1, vStart, block, p0);
      ReplaceSelect(vStart, block);
    } else if verdict == KeepD0 {
      ghost var v1 := s.vec;
      var again := UpdateStateGlobal(s, block, Add(p0, d0));
      assert again.Ok?;
      ReplaceIgnoresInside(v1, vStart, block, Add(p0, d0));
    }
  }

  /** Step 1 of a `do_levmarq` pass when J is due: a fresh J on a random
      sample, JTJ and the gradient. The derivatives move only entries of
      `block`. */
  method RecalcJ(s: State, block: seq<bool>, numPx: int, draw: (nat, nat) -> seq<nat>,
                 dl: real, beNice: bool, threePt: bool) returns (r: Result<(Matrix, seq<nat>, Matrix, seq<real>)>)
    requires s.Valid() && |block| == s.size && dl != 0.0 && DrawShape(draw)
    modifies s
    ensures s.Valid() && AgreeOutside(s.vec, old(s.vec), block)
    ensures r.Ok? ==> (
      var (J, inds, jtj, grad) := r.value;
      |J| == Count(block) && Rows(J, |inds|) && Square(jtj) && |jtj| == |J| && |grad| == |J|
      && (forall k :: 0 <= k < |inds| ==> inds[k] < s.npix)
      && (forall k :: 0 <= k < |J| ==>
            J[k] == JRow(s.residual, s.npix, old(s.vec), Explode(block), k, inds, dl, beNice, threePt))
      && jtj == JtJ(J, |inds|) && grad == CalcImGrad(J, s.residual(s.vec), inds))
    ensures r.Ok? && beNice ==> s.vec == old(s.vec)
  {
    ghost var v := s.vec;
    var blocks := Explode(block);
    var sample :- GetRandJapprox(s, blocks, numPx, draw, dl, beNice, threePt);
    NudgeAllOutside(v, blocks, EndOffset(dl, beNice, threePt), block);
    if beNice {
      NudgeAllZero(v, blocks);
    }
    var (J, inds) := sample;
    var jtj := JtJ(J, |inds|);
    var grad := CalcImGrad(J, s.residual(s.vec), inds);
    return Ok((J, inds, jtj, grad));
  }

  /** `do_levmarq`: Levenberg-Marquardt on `block` with a J drawn on a random
      pixel sample. Every pass tries the steps for `damp` and
      `damp * ddamp`, keeps the better one only if it improves on the error
      at the start of the pass, and otherwise restores the block. The
      error therefore never ends above where it began, and parameters
      outside the block never move. */
  method DoLevmarq(s: State, block: seq<bool>, damp: real, ddamp: real, numIter: int, doRun: bool,
                   runLength: int, decimate: int, maxMem: real, minRedundant: int,
                   dl: real, beNice: bool, threePt: bool,
                   lstsq: Solver, draw: (nat, nat) -> seq<nat>) returns (r: Result<()>)
    requires s.Valid() && s.Blocks() && |block| == s.size && dl != 0.0
    requires SolverShape(lstsq) && DrawShape(draw)
    modifies s
    ensures s.Valid()
    ensures r.Ok? ==> s.err(s.vec) <= old(s.err(s.vec)) && AgreeOutside(s.vec, old(s.vec), block)
  {
    var numPx :- GetNumPxJtj(s.npix, Count(block), decimate, maxMem, minRedundant);
    ghost var e0 := s.err(s.vec);
    ghost var orig := s.vec;

    var d := Damping(damp, ddamp, 0, true);
    var J: Matrix := [];
    var inds: seq<nat> := [];
    var jtj: Matrix := [];
    var grad: seq<real> := [];
    while Running(d, numIter)
      invariant s.Valid()
      invariant s.err(s.vec) <= e0 && AgreeOutside(s.vec, orig, block)
      invariant !d.recalcJ ==> |J| == Count(block) && Rows(J, |inds|) && Square(jtj) && |jtj| == |J|
                               && |grad| == |J| && (forall k :: 0 <= k < |inds| ==> inds[k] < s.npix)
      decreases Budget(d, numIter)
    {
      ghost var vStart := s.vec;
      var p0 := Select(s.vec, block);
      var errStart := s.err(s.vec);

      if d.recalcJ {
        var redo :- RecalcJ(s, block, numPx, draw, dl, beNice, threePt);
        J, inds, jtj, grad := redo.0, redo.1, redo.2, redo.3;
      }

      var d0 := FindLMUpdates(jtj, grad, d.damp, lstsq);
      var d1 := FindLMUpdates(jtj, grad, d.damp * d.ddamp, lstsq);
      var errs :- TrySteps(s, block, p0, d0, d1, vStart);
      var verdict := Judge(errStart, errs.0, errs.1);
      KeptIsBest(errStart, errs.0, errs.1);
      Settle(s, block, p0, d0, d1, verdict, vStart);
      ReplaceAgreesOutside(vStart, block, Add(p0, d0));
      ReplaceAgreesOutside(vStart, block, Add(p0, d1));
      if verdict == BadInvert && d.ddamp == 0.0 {
        return Err(ArithmeticError("float division by zero"));
      }
      var next := Next(d, verdict);
      NextSpendsBudget(d, verdict, numIter);
      if !verdict.Bad() && doRun {
        var _ :- DoInternalRun(s, block, J, inds, jtj, next.damp, runLength, lstsq);
      }
      d := next;
    }
    return Ok(());
  }
}
