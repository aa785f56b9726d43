# cbamf optimizer, analysis helpers and interpolation maps in Dafny

This project models the control logic of the Levenberg-Marquardt fitter in
`cbamf/opt/optimize.py` and proves properties of that model. It also models
the particle masks, matching and pair enumeration of `cbamf/test/analyze.py`
and the exact helpers of `peri/interpolation.py`.

The fitted state `s` is modelled as follows:

- The `States.State` class holds the flat parameter vector `s.state` and the
  named parameter blocks.
- The particle layout is positions `3a+k`, radii `3n+a`, types `4n+a`.
- The error `get_err`, the residual images and the region a particle change
  redraws are fixed functions of the parameter vector.
- Every call into the rendering machinery is recorded in a log:
  - `update`, `obj.initialize` and `_update_tile` of the source;
  - `reset`, which `do_levmarq_particles` calls at lines 883-886 and
    `do_levmarq_all_particle_groups` calls at line 1028.

Numerical routines are parameters of the model:

- least squares, the eigen-decomposition and Brent's method;
- the random pixel draw;
- the square root used by `nearest` and `gofr`;
- the Chebyshev coefficient construction.

Python exceptions become `Result` failures (`Wrappers.Failure`). Each failure
carries the kind and message of the exception the source raises.

The optimizer is organised by module:

- `PixelBudget` (`pixel_budget.dfy`): how many pixels the stochastic J
  samples.
- `NormalEq`: JTJ and the damped matrix of `find_LM_updates`.
- `Damping`: the pass verdict and damping update shared by both LM loops. The
  pass counter is kept in integer tenths.
- `Masks`: numpy boolean-mask reads and writes.
- `Tiles`: unions of tiles and the even-aligned redraw tile.
- `Grouping`: the grid partition of particles.
- `Particles`: single-particle updates, the finite-difference rows of J, and
  batch updates.
- `GlobalOpt`: `update_state_global`, `eval_deriv`, `calculate_J_approx`,
  `get_rand_Japprox` and `do_levmarq`.
- `LineSearch`: `do_line_min` and `do_conj_grad_jtj`.
- `ParticleOpt`: `do_levmarq_particles` and `do_levmarq_all_particle_groups`.
- `RegionSize`: the memory-driven search for the group box size.

`Analyze` and `Interpolation` cover the two smaller files.

## Model

| member | source | states |
|---|---|---|
| PixelBudget.GetNumPxJtj | cbamf/opt/optimize.py:220-231 | RuntimeError exactly when the redundancy bound exceeds the memory bound; otherwise the count lies between them and equals the decimated count when that is admissible; a zero parameter count or decimation fails as division does |
| PixelBudget.NumPxIsClosestAdmissible | cbamf/opt/optimize.py:230 | the clipped count is the admissible count nearest the decimated one |
| PixelBudget.TinyMemoryIsRejected | cbamf/opt/optimize.py:228-229 | a 1e3-byte ceiling with redundancy 1e6 raises |
| PixelBudget.DefaultBudgetExample | cbamf/opt/optimize.py:220-231 | the defaults with 10 parameters and 10^6 pixels give 2500 |
| Numeric.Clip | cbamf/opt/optimize.py:230 | numpy clip: within [lo, hi] when lo <= hi, identity inside, never above hi |
| Numeric.FloorDiv | cbamf/opt/optimize.py:226 | Python 2 integer division rounds toward minus infinity |
| Numeric.Trunc | cbamf/opt/optimize.py:222 | `int()` truncates toward zero |
| NormalEq.JtJ | cbamf/opt/optimize.py:109-110 | J J^T is square with one row per parameter |
| NormalEq.JtJSymmetric | cbamf/opt/optimize.py:109-110 | J J^T is symmetric |
| NormalEq.JtJDiagonalNonNegative | cbamf/opt/optimize.py:110 | the diagonal of J J^T is non-negative |
| NormalEq.Damped | cbamf/opt/optimize.py:117-119 | A0 keeps the off-diagonal entries and scales the diagonal by 1 + damp |
| NormalEq.DampedSymmetric | cbamf/opt/optimize.py:117-119 | damping keeps symmetry |
| NormalEq.UndampedIsGaussNewton | cbamf/opt/optimize.py:119 | zero damping leaves JTJ unchanged |
| NormalEq.FindLMUpdates | cbamf/opt/optimize.py:116-124 | one update per gradient entry, from the least-squares solve of A0 x = -grad |
| NormalEq.CalcImGrad | cbamf/opt/optimize.py:112-114 | entry i is the dot product of J's row i with the residual sampled at the chosen pixels |
| Damping.Judge | cbamf/opt/optimize.py:349-368 | a pass is bad iff min(err0, err1) > err_start; inverts iff bad and err0 < err1; keeps d0 iff good and err0 < err1 |
| Damping.KeptIsBest | cbamf/opt/optimize.py:349-369 | the error a pass keeps is the least of the three and never above the start |
| Damping.TieKeepsD1 | cbamf/opt/optimize.py:364-368 | equal trial errors keep d1 |
| Damping.Next | cbamf/opt/optimize.py:349-373 | the counter grows by one tenth on a bad pass and by ten tenths on a good one; J is recomputed iff the pass was good |
| Damping.NextKeepsRanges | cbamf/opt/optimize.py:355-368 | damp >= 0 and ddamp > 0 are kept by every pass |
| Damping.InvertTwice | cbamf/opt/optimize.py:355-358 | two inversions restore ddamp |
| Damping.NextSpendsBudget | cbamf/opt/optimize.py:331-373 | every pass brings `counter < num_iter` closer to false, so the loop ends |
| Masks.Explode | cbamf/opt/optimize.py:306 | one single-entry mask per free entry, each inside the block |
| Masks.ReplaceSelect | cbamf/opt/optimize.py:135 | writing back what was read changes nothing |
| Masks.SelectReplace | cbamf/opt/optimize.py:135 | reading back what was written returns it |
| Masks.ReplaceIgnoresInside | cbamf/opt/optimize.py:135 | a write over the whole block erases earlier changes inside it |
| Masks.ShiftInside | cbamf/opt/optimize.py:69 | `s.update(b, s.state[b] + c)` moves exactly the entries of b by c |
| Masks.RestoreAfterWrite | cbamf/opt/optimize.py:325 | restoring the values read before a write undoes it |
| Tiles.MinAlong | cbamf/opt/optimize.py:724 | the minimum is attained and below every corner, with None lowest as in Python 2 |
| Tiles.MaxAlong | cbamf/opt/optimize.py:725 | the maximum is attained and above every corner |
| Tiles.UnionEncloses | cbamf/opt/optimize.py:714-727 | the union tile contains every per-particle tile |
| Tiles.UnionIsLeast | cbamf/opt/optimize.py:714-727 | every box containing all the tiles contains their union |
| Tiles.CleanUp | cbamf/opt/optimize.py:735-741 | open corner entries become 0 on the left and the image extent on the right |
| Tiles.RoundUpEven | cbamf/opt/optimize.py:758 | `x += x % 2` gives the least even integer at or above x |
| Tiles.RedrawTiles | cbamf/opt/optimize.py:757-769 | the outer tile is clipped to the image and the inner tile is it shrunk by one voxel per side |
| Tiles.PaddedBoxCovers | cbamf/opt/optimize.py:757-760 | before clipping the left corner is even and at most every left, the right corner is even and at least every right plus one |
| Grouping.FindParticlesInBox | cbamf/opt/optimize.py:684-704 | lists exactly the particles with lo < p <= hi on every axis, ascending, each once |
| Grouping.AppendRow | cbamf/opt/optimize.py:953-955 | the innermost loop appends one box per start on the last axis |
| Grouping.AppendPlane | cbamf/opt/optimize.py:952-955 | the middle loop appends one row per start on the second axis |
| Grouping.AllBoxes | cbamf/opt/optimize.py:950-955 | every box of the grid, in nested-loop order |
| Grouping.GridBounds | cbamf/opt/optimize.py:941-942 | the given bounds, or the whole image |
| Grouping.SeparateParticlesIntoGroups | cbamf/opt/optimize.py:910-963 | ValueError iff some box size is zero; otherwise the non-empty box contents in box order |
| Grouping.CountStartsRange | cbamf/opt/optimize.py:948 | along one axis a coordinate is bracketed by at most one start, by exactly one inside (lo, hi], by none at or below lo |
| Grouping.GroupsCount | cbamf/opt/optimize.py:957-961 | dropping empty boxes loses no particle |
| Grouping.GroupsWellFormed | cbamf/opt/optimize.py:957-961 | each group is non-empty, ascending and lists valid particles |
| Grouping.AtMostOneGroup | cbamf/opt/optimize.py:957-961 | a particle listed at most once appears in no two groups |
| Grouping.GroupsCountProduct | cbamf/opt/optimize.py:948-961 | the number of groups holding a particle is the product of its per-axis bracket counts |
| Grouping.GroupsPartition | cbamf/opt/optimize.py:702 | each particle is in at most one group, in exactly one inside the bounds, in none at or below the lower bound |
| States.SetParticle | cbamf/opt/optimize.py:585 | the particle takes the new value and no other entry changes |
| States.SetParticleOthers | cbamf/opt/optimize.py:585 | setting one particle leaves every other particle |
| States.SetParticleAbstract | cbamf/opt/optimize.py:585 | setting particle a replaces entry a of the particle list and keeps the other sub-models |
| States.SameParticlesAndOthers | cbamf/opt/optimize.py:745-746 | the vector is determined by its particles and the other entries |
| States.SetParticleSame | cbamf/opt/optimize.py:585 | writing a particle's own values changes nothing |
| States.State.constructor | cbamf/opt/optimize.py:134 | a state with the given parameters and an empty log |
| States.State.Update | cbamf/opt/optimize.py:69 | the block takes the given values; nothing is logged |
| States.State.Push | cbamf/opt/optimize.py:142-208 | a sub-model push writes its block and is logged |
| States.State.Initialize | cbamf/opt/optimize.py:165-166 | re-rendering the particles is logged and changes no parameter |
| States.State.SetParticleTo | cbamf/opt/optimize.py:585-588 | the particle takes the new value; nothing is logged |
| States.State.UpdateTile | cbamf/opt/optimize.py:587 | a tile redraw is logged and changes no parameter |
| States.State.Reset | cbamf/opt/optimize.py:1028 | a reset is logged and changes no parameter |
| GlobalOpt.PushIfTouched | cbamf/opt/optimize.py:144-147 | one section pushes its block iff it shares an entry with `block` |
| GlobalOpt.ProgressComplete | cbamf/opt/optimize.py:134-211 | once every block is pushed the vector is the old one with `new_state[block] = data` |
| GlobalOpt.AnyParticleEntry | cbamf/opt/optimize.py:165 | `np.any(bpos \| brad \| btyp)` holds iff the state has particles |
| GlobalOpt.PushParticleSections | cbamf/opt/optimize.py:142-166 | zscale, pos, rad and typ sections, then the particle re-initialization |
| GlobalOpt.PushFieldSections | cbamf/opt/optimize.py:168-208 | psf, ilm, bkg, off, slab, rscale and sigma sections, in that order |
| GlobalOpt.UpdateStateGlobal | cbamf/opt/optimize.py:126-214 | RuntimeError iff the parameter names differ from the supported set, before any change; otherwise the vector becomes the old one with `block` set to data, and the pushes are logged in source order |
| GlobalOpt.PushedIffIntersects | cbamf/opt/optimize.py:144-208 | a block is pushed iff it intersects `block` |
| GlobalOpt.ZscaleFirst | cbamf/opt/optimize.py:142-147 | when zscale is touched it is pushed before anything else |
| GlobalOpt.InitializeIffParticles | cbamf/opt/optimize.py:165-166 | the particles are re-initialized iff the state has particles, whatever the block |
| GlobalOpt.Nudge | cbamf/opt/optimize.py:69 | entries of b move by c and the others stay |
| GlobalOpt.Stencil | cbamf/opt/optimize.py:65-76 | the derivative has one value per pixel |
| GlobalOpt.EvalDeriv | cbamf/opt/optimize.py:61-79 | the two- or three-point derivative, with the block left at its original value (be_nice), at +dl (two-point) or at -dl (three-point) |
| GlobalOpt.MoveBlock | cbamf/opt/optimize.py:69 | `s.update(block, p0 + e)` from the block nudged by any c leaves the state nudged by e from the original values |
| GlobalOpt.NudgeAgain | cbamf/opt/optimize.py:67-72 | a second update from the original block values lands where it would from the start |
| GlobalOpt.NiceDerivRestores | cbamf/opt/optimize.py:77-78 | with be_nice the state is unchanged |
| GlobalOpt.RudeDerivMoves | cbamf/opt/optimize.py:65-78 | without be_nice the block is left at +dl or -dl and entries outside it never move |
| GlobalOpt.NudgeAllZero | cbamf/opt/optimize.py:40-42 | with be_nice a whole J leaves every parameter in place |
| GlobalOpt.NudgeAllOutside | cbamf/opt/optimize.py:40-42 | perturbing blocks inside `block` leaves the rest alone |
| GlobalOpt.CalculateJApprox | cbamf/opt/optimize.py:30-43 | one row per block in block order: row k is block k's derivative sampled at `inds`, taken with the earlier blocks at their end offsets; every block ends at its end offset |
| GlobalOpt.AllPixels | cbamf/opt/optimize.py:103 | the full slice lists every pixel in order |
| GlobalOpt.GetRandJapprox | cbamf/opt/optimize.py:91-107 | J on distinct random pixels, or on all pixels when there are no more than requested, row k being block k's derivative at those pixels; a negative count fails |
| GlobalOpt.DoInternalRun | cbamf/opt/optimize.py:310-326 | the inner run never ends above its starting error and only moves `block` |
| GlobalOpt.TrySteps | cbamf/opt/optimize.py:342-347 | the errors at p0 + d0 and p0 + d1, with the state left at p0 + d1 |
| GlobalOpt.Settle | cbamf/opt/optimize.py:349-369 | a bad pass restores p0, a d0 pass returns to p0 + d0, a d1 pass stays |
| GlobalOpt.RecalcJ | cbamf/opt/optimize.py:336-339 | J with one derivative row per parameter of `block`, JTJ equal to J·Jᵀ and the gradient equal to `calc_im_grad` of J and the residual after the draw; the derivatives move only `block` and nothing with be_nice |
| GlobalOpt.DoLevmarq | cbamf/opt/optimize.py:233-373 | the error never ends above where it began and parameters outside the block never move |
| LineSearch.Line | cbamf/opt/optimize.py:467 | the parameter vector along the line keeps its size |
| LineSearch.Probe | cbamf/opt/optimize.py:481 | the k-th outward point lies beyond the starting point on its side |
| LineSearch.ForMin | cbamf/opt/optimize.py:466-468 | the block moves to p0 + x*vec and the error there is returned |
| LineSearch.Expand | cbamf/opt/optimize.py:480-483 | the search stops at the first point c*3^k, k >= 1, whose error is not below the error at c; every earlier point was below it |
| LineSearch.FindBracket | cbamf/opt/optimize.py:470-495 | the bracket is [-2,0,2] when the error at 0 is no worse than at both ends; otherwise [c*3^k, -2, 0] or [0, 2, c*3^k] past the better end, where k is the first step whose error is not below the error at c |
| LineSearch.FoundIsBracket | cbamf/opt/optimize.py:470-495 | the bracket found is increasing with its least error in the middle |
| LineSearch.FoundBracketUnique | cbamf/opt/optimize.py:470-495 | the search determines one bracket per line |
| LineSearch.StopsAtUnique | cbamf/opt/optimize.py:480-483 | the outward search stops at one point only |
| LineSearch.FlatLineRefused | cbamf/opt/optimize.py:470-497 | a line with equal errors at -2, 0 and 2 gives [-2,0,2], which Brent refuses |
| LineSearch.FallingLineNeverStops | cbamf/opt/optimize.py:480-483 | where the error never climbs back to its value at c, every outward point is below it and the search does not stop |
| LineSearch.DoLineMin | cbamf/opt/optimize.py:457-503 | the bracket used is the one the search finds; on a bracket that is not strict, ValueError with the block left at its last point; otherwise success exactly when Brent's value is no worse than the starting error, with the block at Brent's x, and RuntimeError('wtf') otherwise; a layout without `_param_order` fails before any change |
| LineSearch.CheckBracket | cbamf/opt/optimize.py:497 | the three bracket points are evaluated in order and the bracket is accepted exactly when it is strict |
| LineSearch.RunBrent | cbamf/opt/optimize.py:497-503 | Brent's x is kept exactly when its value is no worse than the starting error; otherwise RuntimeError('wtf') at Brent's last point |
| LineSearch.MaxOf | cbamf/opt/optimize.py:447 | the maximum eigenvalue bounds and is attained |
| LineSearch.Directions | cbamf/opt/optimize.py:446-449 | eigen-directions from the highest index down, skipping exactly the degenerate ones |
| LineSearch.SweepDirections | cbamf/opt/optimize.py:446-455 | the sweep never raises the error and only moves the block; it fails only with the line search's RuntimeError or ValueError |
| LineSearch.SweepRisesFromBlock | cbamf/opt/optimize.py:452-454 | each line of a sweep is a line on the block, so the bracket search ends on it |
| LineSearch.DirectionsNonZero | cbamf/opt/optimize.py:446-449 | the directions kept have eigenvalues at or above the floor, hence non-zero |
| LineSearch.VisitedNonZero | cbamf/opt/optimize.py:441-452 | the divisor `evals[a]` of every visited direction is non-zero |
| LineSearch.DoConjGradJtj | cbamf/opt/optimize.py:375-455 | only the block moves; with be_nice the error never rises over all sweeps |
| LineSearch.Sweeps | cbamf/opt/optimize.py:445-455 | `num_sweeps` sweeps never raise the error and only move the block |
| Particles.Proposed | cbamf/opt/optimize.py:554-579 | typ defaults to the old type; without fix_errors the update is p0 + pos (relative) or pos (absolute) |
| Particles.UpdateOneParticle | cbamf/opt/optimize.py:508-589 | ValueError, before any change, exactly when the proposed particle is outside the image or has a negative radius; otherwise the particle takes the new values and is redrawn when asked |
| Particles.FixErrorsNeverRaises | cbamf/opt/optimize.py:556-567 | with fix_errors and every extent at least 1 no update raises |
| Particles.EmptyAxisStillRaises | cbamf/opt/optimize.py:561-567 | with an empty axis the clamped update still raises |
| Particles.ZeroRadiusAccepted | cbamf/opt/optimize.py:554-555 | a radius of exactly 0 inside the image is accepted |
| Particles.ClampedStepDoesNotRollBack | cbamf/opt/optimize.py:559-562 | a clamped step followed by its negation does not restore the particle |
| Particles.StepIsNudge | cbamf/opt/optimize.py:638-640 | an unclamped relative update by `dx` moves exactly one component |
| Particles.NudgedTwice | cbamf/opt/optimize.py:647-651 | two moves of a component add |
| Particles.NudgedAll | cbamf/opt/optimize.py:634-672 | after all four axes every component is moved by the same offset and the type kept |
| Particles.SetParticleTwice | cbamf/opt/optimize.py:585 | setting a particle twice keeps the second value |
| Particles.RowsUpTo | cbamf/opt/optimize.py:634-672 | row j is taken with the earlier components already at their end offsets |
| Particles.MoveAxis | cbamf/opt/optimize.py:640 | a relative update moves one component of one particle and only redraws |
| Particles.PerturbAxis | cbamf/opt/optimize.py:635-656 | one axis gives its row and leaves the component at its end offset |
| Particles.FinishAxis | cbamf/opt/optimize.py:646-656 | the three-point read at -dl and the be_nice return |
| Particles.ThreePointTail | cbamf/opt/optimize.py:646-652 | the three-point stencil reads at -dl and be_nice returns to 0 |
| Particles.MoveTwice | cbamf/opt/optimize.py:647-651 | two particle updates of one component add |
| Particles.EvalOneParticleGrad | cbamf/opt/optimize.py:591-674 | four rows in x, y, z, R order with each component at its end offset; without a slicer the two-point stencil hits the unbound `mask` before moving anything |
| Particles.GradLoop | cbamf/opt/optimize.py:635-674 | after the four axes every component sits at its end offset and the rows are those of each axis in turn; the particle stays the only one moved |
| Particles.GradStep | cbamf/opt/optimize.py:635-672 | one pass of the loop extends the rows by the row of axis k |
| Particles.ManyGrad | cbamf/opt/optimize.py:676-682 | four rows per particle |
| Particles.EvalManyParticleGrad | cbamf/opt/optimize.py:676-682 | the rows of each particle in the order given, four per particle |
| Particles.ManyStep | cbamf/opt/optimize.py:679-681 | one particle's rows extend the prefix |
| Particles.ManyGradStep | cbamf/opt/optimize.py:679-681 | the rows over one more particle are the prefix's rows then that particle's |
| Particles.StillTiles | cbamf/opt/optimize.py:716-722 | one tile per listed particle |
| Particles.GetTileFromMultipleParticleChange | cbamf/opt/optimize.py:709-727 | the least tile enclosing every listed particle's tile; no particles is a ValueError |
| Particles.ApplyAll | cbamf/opt/optimize.py:744-748 | the updates in order, or the ValueError of the first bad one |
| Particles.UpdatedTiles | cbamf/opt/optimize.py:747-750 | one reported tile per update |
| Particles.CleanLefts | cbamf/opt/optimize.py:749-751 | each left corner cleaned with 0 |
| Particles.CleanRights | cbamf/opt/optimize.py:750-752 | each right corner cleaned with the image extent |
| Particles.CleanSnoc | cbamf/opt/optimize.py:751-752 | one more tile appends its cleaned corners |
| Particles.UpdateParticles | cbamf/opt/optimize.py:729-774 | the batch applied in order and the padded union redrawn once; an empty list fails; the other sub-models are kept |
| Particles.ApplyBatch | cbamf/opt/optimize.py:744-752 | the loop applies each update and stops at the first bad one |
| Particles.ApplyNext | cbamf/opt/optimize.py:745-752 | one update without redrawing, collecting its corners |
| Particles.ApplyAllStep | cbamf/opt/optimize.py:744-748 | the batch over one more update extends the prefix |
| Particles.UpdateStopsAtFirstBad | cbamf/opt/optimize.py:747-748 | once a prefix fails the batch fails |
| Particles.AbsoluteUpdatesPlace | cbamf/opt/optimize.py:745-746 | particle k takes params[4k..4k+3) as position and params[4k+3] as radius |
| Particles.PrefixUntouched | cbamf/opt/optimize.py:744-748 | unlisted particles are unchanged |
| ParticleOpt.DistinctOk | cbamf/opt/optimize.py:744-748 | a batch over distinct particles succeeds iff each proposed particle is accepted |
| ParticleOpt.DistinctValues | cbamf/opt/optimize.py:744-748 | each listed particle takes the value asked for from its original |
| ParticleOpt.Untouched | cbamf/opt/optimize.py:744-748 | unlisted particles are kept |
| ParticleOpt.FixUnneeded | cbamf/opt/optimize.py:556-567 | a batch that needs no clamping is the same with fix_errors |
| ParticleOpt.ProposedCompose | cbamf/opt/optimize.py:574-576 | two unclamped relative updates add |
| ParticleOpt.ListCompose | cbamf/opt/optimize.py:871-875 | two unclamped relative batches are one with the summed steps |
| ParticleOpt.StepCompose | cbamf/opt/optimize.py:871-875 | per particle, a step from where the previous left it is the summed step |
| ParticleOpt.SameSteps | cbamf/opt/optimize.py:744-748 | batches over lists agreeing outside the batch end the same |
| ParticleOpt.ListZero | cbamf/opt/optimize.py:744-748 | a zero relative batch over accepted particles changes nothing |
| ParticleOpt.ListUndo | cbamf/opt/optimize.py:882 | the negated batch restores distinct accepted particles when nothing was clamped |
| ParticleOpt.ListedGoodAfter | cbamf/opt/optimize.py:581-582 | after a successful batch every listed particle is acceptable |
| ParticleOpt.BatchMovesListed | cbamf/opt/optimize.py:744-748 | a batch moves only listed particles |
| ParticleOpt.ManyGradMoves | cbamf/opt/optimize.py:676-682 | the derivatives move only the group's particles |
| ParticleOpt.AxisRowLength | cbamf/opt/optimize.py:645 | a row has one entry per masked pixel of the tile |
| ParticleOpt.ManyGradRows | cbamf/opt/optimize.py:859-860 | with a slicer every row has the tile's masked pixel count |
| ParticleOpt.RecalcParticleJ | cbamf/opt/optimize.py:857-861 | the enclosing tile, four rows per particle and JTJ; an empty group fails; with be_nice the particles do not move |
| ParticleOpt.NiceManyGradStays | cbamf/opt/optimize.py:591-682 | with be_nice the finite differences put every particle back |
| ParticleOpt.TryParticleSteps | cbamf/opt/optimize.py:871-876 | err0 after d0 and err1 after d1 - d0, with fix_errors |
| ParticleOpt.RollBackGroup | cbamf/opt/optimize.py:882 | `-d1md0 - d0` restores the start exactly when nothing was clamped |
| ParticleOpt.UndoBadPass | cbamf/opt/optimize.py:879-886 | the rollback of a bad pass, with a reset logged last exactly when the error stays more than 1e-3 above the start |
| ParticleOpt.StepBackToD0 | cbamf/opt/optimize.py:899-900 | the corrected move back returns to the particles err0 was measured on |
| ParticleOpt.SettleParticles | cbamf/opt/optimize.py:879-904 | a bad pass rolls back and resets when the error did not return; a d0 pass returns to p0 + d0 (corrected); a d1 pass stays |
| ParticleOpt.ReturnsToD0 | cbamf/opt/optimize.py:899-900 | `-d1md0` from p0 + d1 lands on p0 + d0 when unclamped |
| ParticleOpt.RollbackRestores | cbamf/opt/optimize.py:882 | `-d1md0 - d0` from p0 + d1 restores the start when unclamped |
| ParticleOpt.ReupdateAsWritten | cbamf/opt/optimize.py:900 | the source's move back applies +d1md0 once more |
| ParticleOpt.AsWrittenOvershoots | cbamf/opt/optimize.py:899-900 | as written each particle ends at p0 + d0 + 2(d1 - d0) |
| ParticleOpt.AsWrittenIsDouble | cbamf/opt/optimize.py:900 | as written the move back is the batch e + e from p0 + d0 |
| ParticleOpt.DoubledStep | cbamf/opt/optimize.py:900 | a step under e + e is twice the step under e |
| ParticleOpt.ReupdateExample | cbamf/opt/optimize.py:899-900 | a one-particle pass that keeps d0 ends at x = 7 as written and x = 5 corrected |
| ParticleOpt.UndoExact | cbamf/opt/optimize.py:842-849 | a run step and its undo restore the group when unclamped |
| ParticleOpt.RunStep | cbamf/opt/optimize.py:837-850 | a worsening step is undone and ends the run |
| ParticleOpt.ParticleRun | cbamf/opt/optimize.py:831-850 | the run moves only the group through at most `run_length` steps, each the LM step at the previous point; `exact` holds exactly when the group starts distinct and accepted and no step needed clamping, and then the error never ends above its start |
| ParticleOpt.RunGrows | cbamf/opt/optimize.py:837-850 | one more step extends the run's chain, and the run is unclamped exactly when its earlier steps and the new one are |
| ParticleOpt.ParticlePass | cbamf/opt/optimize.py:863-904 | one pass moves only the group; a zero ddamp inversion fails; `exact` holds exactly when the group is distinct and accepted and neither trial step d0, d1 - d0 needs clamping, and then the error ends no higher than `err_start` (corrected move back) |
| ParticleOpt.ParticleIteration | cbamf/opt/optimize.py:853-908 | one loop pass moves only the group and keeps J's shape; when nothing is clamped and J is drawn with be_nice the error ends no higher than at the start of the pass (corrected) |
| ParticleOpt.DoLevmarqParticles | cbamf/opt/optimize.py:776-908 | only the listed particles move; no iterations change nothing; an empty group fails; when nothing is clamped and J is drawn with be_nice the error never ends above where it began (corrected move back) |
| ParticleOpt.NotListed | cbamf/opt/optimize.py:1024-1025 | a particle in no group is not in their concatenation |
| ParticleOpt.OnlyMovedJoin | cbamf/opt/optimize.py:1024-1025 | moves of successive groups compose |
| ParticleOpt.GroupsIndexParticles | cbamf/opt/optimize.py:1022-1023 | groups list valid particle indices |
| ParticleOpt.OutsideBoundsNotGrouped | cbamf/opt/optimize.py:702 | a particle at or below the lower bound is never optimized |
| ParticleOpt.ChooseRegionSize | cbamf/opt/optimize.py:1013-1020 | the given size, or the result of the memory search (corrected) |
| ParticleOpt.DoLevmarqAllParticleGroups | cbamf/opt/optimize.py:965-1029 | only grouped particles move, grouped by the starting positions with the given or searched size; the last call is a reset; when nothing is clamped and J is drawn with be_nice the error never ends above where it began (corrected search and move back) |
| ParticleOpt.RunGroups | cbamf/opt/optimize.py:1024-1028 | each group in turn followed by a reset: only the listed particles move, the last event is a reset, and when nothing is clamped and J is drawn with be_nice the error never ends above where it began (corrected) |
| RegionSize.MaxLen | cbamf/opt/optimize.py:1009 | the largest group size bounds and is attained |
| RegionSize.MemUsage | cbamf/opt/optimize.py:1005-1011 | fails iff some box side is zero |
| RegionSize.CalcMemUsage | cbamf/opt/optimize.py:1005-1011 | the memory estimate of the grouping |
| RegionSize.LargestGroup | cbamf/opt/optimize.py:1009 | the loop finds the largest group size |
| RegionSize.ShrinkWrittenEnds | cbamf/opt/optimize.py:1015-1016 | as written the shrink loop runs until no side is above 2 |
| RegionSize.GrowWrittenEnds | cbamf/opt/optimize.py:1018-1019 | as written the grow loop runs until a side reaches the image |
| RegionSize.ShrinkFits | cbamf/opt/optimize.py:1014-1016 | the corrected shrink stops at the first size that fits, or at side 2 |
| RegionSize.GrowFits | cbamf/opt/optimize.py:1017-1020 | the corrected grow steps only past sizes that fit |
| RegionSize.RegionSearchFits | cbamf/opt/optimize.py:1013-1020 | the corrected search returns a fitting size except at side 2 or at the image extent |
| RegionSize.ShrinkExample | cbamf/opt/optimize.py:1015-1016 | as written 4 shrinks to 2 although 3 fits |
| RegionSize.GrowExample | cbamf/opt/optimize.py:1018-1020 | as written 2 grows to 4, over budget; corrected 3 |
| RegionSize.FindRegionSize | cbamf/opt/optimize.py:1013-1020 | the corrected search over fresh groupings (corrected) |
| RegionSize.ShrinkRegion | cbamf/opt/optimize.py:1015-1016 | the shrinking loop, re-grouping the particles for each estimate, steps every side down by one while the estimate is over max_mem and some side is above 2, and fails as the first failing estimate does (corrected) |
| RegionSize.GrowRegion | cbamf/opt/optimize.py:1018-1019 | the growing loop steps every side up by one while the estimate is within max_mem and every side is below the image extent, and returns the first size where it stops (corrected) |
| Analyze.TrimBox | cbamf/test/analyze.py:38-45 | without radii, pad < p_i < shape_i - pad on every axis; with radii, p_i + r > pad and p_i - r < shape_i - pad |
| Analyze.RadiusTestWidens | cbamf/test/analyze.py:44-45 | for r >= 0 the radius test accepts every centre the plain test accepts |
| Analyze.ZeroRadiusIsCentreTest | cbamf/test/analyze.py:44-45 | a zero radius gives the plain test |
| Analyze.GoodParticles | cbamf/test/analyze.py:13-36 | admitted only with rad > 0 and typ == 1; with inbox false exactly that; with inbox also the box test |
| Analyze.ExtentAdmitsMore | cbamf/test/analyze.py:30-34 | `inboxrad` admits every particle the centre test admits |
| Analyze.SqDist | cbamf/test/analyze.py:53 | the squared distance is non-negative |
| Analyze.ArgMin | cbamf/test/analyze.py:54 | an index of the least value, with every earlier value strictly larger |
| Analyze.RootedArgMin | cbamf/test/analyze.py:53-54 | an increasing square root does not change the argmin |
| Analyze.Nearest | cbamf/test/analyze.py:47-55 | one index per point of p0, each the first nearest point of p1; ValueError iff p0 is non-empty and p1 empty |
| Analyze.NearestUnique | cbamf/test/analyze.py:54 | the nearest index is unique given the first-minimum rule |
| Analyze.PairsBelowMembers | cbamf/test/analyze.py:68-69 | the pairs listed are exactly (i, j) with i below the row count and i < j < N |
| Analyze.PairsBelowCount | cbamf/test/analyze.py:68-69 | the pair count of the first rows |
| Analyze.PairsBelowSorted | cbamf/test/analyze.py:68-69 | pairs are in lexicographic order |
| Analyze.PairsEnumerate | cbamf/test/analyze.py:68-71 | N(N-1)/2 pairs, exactly those with i < j < N, lexicographically ordered |
| Analyze.SepsAppend | cbamf/test/analyze.py:71 | `seps.extend` concatenates |
| Analyze.Gofr | cbamf/test/analyze.py:63-72 | the separation of each pair in pair order; IndexError iff there are at least two radii and fewer positions than radii |
| Analyze.GofrSurfaces | cbamf/test/analyze.py:74-86 | the surface separation of each pair in pair order |
| Analyze.SurfacesAreCentresMinusRadii | cbamf/test/analyze.py:82-84 | entry k of `gofr_surfaces` is entry k of `gofr` minus the two radii |
| Analyze.TouchingBelowMembers | cbamf/test/analyze.py:112-113 | the counted particles are exactly those within one radius of the bounds |
| Analyze.PackingCount | cbamf/test/analyze.py:103-128 | the count of touching particles; the state's bounds override; neither given is an AttributeError |
| Analyze.FlattenReshape | cbamf/test/analyze.py:59 | regrouping into rows of 3 loses nothing |
| Analyze.ReshapeFlatten | cbamf/test/analyze.py:59 | flattening the rows gives them back |
| Analyze.IterPosRad | cbamf/test/analyze.py:57-61 | one (pos, rad) per sample in order; a position count not a multiple of 3 is a ValueError |
| Interpolation.Outer1D | peri/interpolation.py:69-71 | an |a| x |b| matrix of non-negative entries, zero where the points coincide |
| Interpolation.Outer1DSelf | peri/interpolation.py:69-71 | for a = b the matrix is symmetric with a zero diagonal |
| Interpolation.CoordinateSumEntries | peri/interpolation.py:115-116 | entry (i, j) is the sum over coordinates of squared differences |
| Interpolation.OuterND | peri/interpolation.py:112-117 | entry (i, j) is the squared distance of a_i and b_j; mismatched dimensions are a TypeError |
| Interpolation.OuterNDOneCoordinate | peri/interpolation.py:112-117 | one coordinate gives the 1-D matrix |
| Interpolation.DiffsTelescope | peri/interpolation.py:59 | the consecutive differences sum to last - first |
| Interpolation.DefaultFilterSize | peri/interpolation.py:58-59 | half the mean spacing; no value for fewer than two points |
| Interpolation.FilterSizeIsHalfSpan | peri/interpolation.py:58-59 | equals (x_last - x_first) / (2(n - 1)) |
| Interpolation.FilterSizePositive | peri/interpolation.py:58-59 | positive for increasing points |
| Interpolation.ChebyshevInterpolation1D.Blank | peri/interpolation.py:148-150 | the window and coefficient construction are stored |
| Interpolation.ChebyshevInterpolation1D.New | peri/interpolation.py:124-151 | fails iff evalpts < degree or degree < 1 |
| Interpolation.ChebyshevInterpolation1D.SetOrder | peri/interpolation.py:189-196 | ValueError with nothing changed when evalpts < degree; otherwise both fields are stored, then the coefficients are built, or an IndexError for degree < 1 |
| Interpolation.ChebyshevInterpolation1D.X2C | peri/interpolation.py:153-155 | division by zero iff the window is empty |
| Interpolation.X2CEndpoints | peri/interpolation.py:155 | window[0] maps to -1 and window[1] to 1 |
| Interpolation.C2XUndoesX2C | peri/interpolation.py:155-159 | `_c2x(_x2c(x)) == x` for a non-empty window |
| Interpolation.X2CUndoesC2X | peri/interpolation.py:155-159 | `_x2c(_c2x(c)) == c` for a non-empty window |
| Interpolation.X2CIncreasing | peri/interpolation.py:155 | strictly increasing for window[0] < window[1] |
| Interpolation.X2CWindowOntoUnit | peri/interpolation.py:155 | x is in the window iff its image is in [-1, 1], and C2X maps [-1, 1] into the window |

## Left out

- Numerical routines are parameters with only their shapes assumed:
  - `np.linalg.lstsq` (cbamf/opt/optimize.py:120), `np.linalg.eigh` (:441)
    and scipy's Brent `minimize_scalar` (:497);
  - the square root in `nearest` and `gofr` (assumed increasing);
  - the Chebyshev coefficient construction (peri/interpolation.py:161-187)
    and its evaluation.
- Rendering is not modelled. The error, residual images and tiles are fixed
  functions of the parameters. The state object's own code is not part of
  this model; its particle layout and `explode` order are assumptions.
- Random pixel selection is a parameter that returns distinct pixels.
- Floating point is not modelled. Reals are exact, so repeated `+= 0.1` on the
  pass counter does not drift; the counter is kept in whole tenths.
- Printing, timing and warnings are not modelled.
- `calculate_J_exact`, `calculate_JTJ_grad_approx` and `calculate_err_approx`
  are not part of the named core. Only the sampled residual is used, through
  `NormalEq.CalcImGrad`.
- The Barnes `_weight` and `__call__` (peri/interpolation.py:61-89) and the
  N-D `_default_filter_size` are not modelled: exp and sqrt are float
  numerics.
- `gofr_full`, the volume part of `packing_fraction` and
  `average_packing_fraction` are not modelled: histograms and pi arithmetic.
- `pos_rad` (cbamf/test/analyze.py:7-11) names an undefined variable and
  always fails; it is not modelled.
- scripts/single-particle-hessian.py is a plotting script and is not part of
  this model.
- `eval_deriv` defaults `be_nice` to False while the `do_conj_grad_jtj`
  docstring says True. The model takes `be_nice` as an explicit parameter.
- LineSearch.DoLineMin: the bracket search has no iteration cap, so the model
  requires that the error rises again along the searched line
  (`BracketEnds`). On a line whose error stays below its value at -2 or 2
  (`FallingLineNeverStops`), the source returns nothing in exact arithmetic.
  In floating point the loop ends only when `start` overflows, after about
  646 steps, with non-finite parameters that a real-valued model cannot
  hold. The search compares each point with the error at ±2, never with the
  previous point, as the source does.
- LineSearch.DoLineMin: scipy's Brent is a parameter. The model states
  scipy's documented bracket check (three evaluations, then a ValueError
  unless the middle value is strictly lowest). After that it states only
  that the reported value is the error at the reported point and that the
  state is left at the last point evaluated.
- LineSearch.SweepDirections: the bracket search must end on each line the
  sweep visits (`SweepLinesRise`), for the reason given for DoLineMin.
  Every visited eigenvalue must be non-zero. With a zero eigenvalue, numpy's
  division at cbamf/opt/optimize.py:452 gives inf or nan rather than an
  exception, and the line search then runs on non-finite values.
- LineSearch.DoConjGradJtj: the bracket search must end on every line
  through the block from a state that agrees with the start outside it
  (`BlockLinesRise`). The eigen-solver must give no zero eigenvalue at or
  above `min_eigval` times the largest (`VisitsNonZero`). Both are for the
  reasons given for SweepDirections.
- Analyze.TrimBox: radius arrays of a length other than the positions' (numpy
  broadcasting) are excluded by the precondition.
- Analyze.IterPosRad: a generator is modelled as the whole list it yields;
  masks of mismatched length are excluded.
- Analyze.Gofr: distances go through the square-root parameter, so values
  are stated in terms of it.
- Analyze.PackingCount: the volume fraction itself is not computed, only the
  count.
- Interpolation.OuterND: zero-dimensional points are excluded.
- Interpolation.DefaultFilterSize: numpy's NaN mean of an empty array is
  modelled as no value.
- Interpolation.ChebyshevInterpolation1D.X2C: applied to arrays the source
  gives inf or nan rather than an exception; the model states the scalar
  case.
- Interpolation.Outer1D: entries are zero where the points coincide, but the
  converse is not stated.
- ParticleOpt.DoLevmarqParticles: the error bound holds only when the ghost
  flag `exact` is set and J is drawn with `be_nice`. Only without clamping
  are the rollback and the d0 move back exact. `be_nice` is needed because
  `err_start` is read before J is drawn (cbamf/opt/optimize.py:853-861).
  `exact` is the conjunction of the flags of its passes and runs. Those
  flags are characterised exactly by ParticleOpt.ParticlePass
  (`PassUnclamped`) and ParticleOpt.ParticleRun (`RunUnclamped`). The
  driver itself states only that `exact` implies a distinct, accepted group,
  not which inputs set it.
- ParticleOpt.ParticleIteration: the same gap as DoLevmarqParticles for one
  pass and its run.
- ParticleOpt.RunGroups: the same gap for each group in turn.
- ParticleOpt.DoLevmarqAllParticleGroups: the error bound holds only when the
  ghost flag `exact` from RunGroups is set and J is drawn with `be_nice`. No
  closed form of the inputs that set it is stated.
- ParticleOpt.DoLevmarqParticles: the move back on a d0 pass is the corrected
  one from "## Findings". As written the source moves the group by `+d1md0`
  once more, so on the finding's input it ends at x = 7 where the model ends
  at x = 5.
- ParticleOpt.DoLevmarqAllParticleGroups: it composes the corrected halves of
  both findings: the d0 move back in each group, and the memory search when
  `calc_region_size` is set.
- ParticleOpt.ChooseRegionSize: with `calc_region_size` it returns the
  corrected memory search. The source's loops (cbamf/opt/optimize.py:1015,
  :1018) only test that the estimate is non-zero. On the finding's input the
  source settles on size 2 where the model settles on 3. The as-written
  loops are RegionSize.ShrinkWrittenEnds and RegionSize.GrowWrittenEnds.
- RegionSize.FindRegionSize: it is the corrected search. It compares the
  estimate with `max_mem`, which the source never does.
- RegionSize.ShrinkRegion: it shrinks while the estimate is over `max_mem`.
  The source shrinks while the estimate is non-zero.
- RegionSize.GrowRegion: it grows while the estimate is within `max_mem`.
  The source grows while the estimate is non-zero.
- GlobalOpt.EvalDeriv: the step `dl` must be non-zero. With `dl = 0` numpy's
  division at cbamf/opt/optimize.py:74 and :76 gives inf or nan rather than
  an exception. The same requirement is carried by GlobalOpt.CalculateJApprox,
  GlobalOpt.GetRandJapprox, GlobalOpt.RecalcJ, GlobalOpt.DoLevmarq and
  LineSearch.DoConjGradJtj.
- Particles.EvalOneParticleGrad: `dl` must be non-zero, for the same reason,
  at cbamf/opt/optimize.py:652, :656, :668 and :672. The requirement is
  carried by Particles.EvalManyParticleGrad, ParticleOpt.RecalcParticleJ,
  ParticleOpt.DoLevmarqParticles, ParticleOpt.ParticleIteration,
  ParticleOpt.RunGroups and ParticleOpt.DoLevmarqAllParticleGroups.
- PixelBudget.GetNumPxJtj: `decimate` and `min_redundant` are integers, with
  defaults 400 and 20. The source documents both as floats. A fractional
  `decimate` makes `size/decimate` (cbamf/opt/optimize.py:226) an exact
  division, which is then passed on as a float count. That is not modelled.
- LineSearch.DoConjGradJtj: without `be_nice` drawing J moves the block, so
  no error bound is stated in that case.

## Findings

| source | as written | input that shows it | evidently intended | confidence | as-written member | corrected member |
|---|---|---|---|---|---|---|
| cbamf/opt/optimize.py:899-900 | on a good pass with err0 < err1 the group is moved by `+d1md0` once more, ending at p0 + 2 d1 - d0 | one particle at (5,5,5), radius 2, 10-pixel cube, d0 = 0, d1 one pixel along x: it ends at x = 7 | move by `-d1md0` back to p0 + d0, where err0 was measured | not executed | ParticleOpt.ReupdateExample | ParticleOpt.ReturnsToD0 |
| cbamf/opt/optimize.py:1015-1020 | both loops test only that the memory estimate is non-zero, never compare it with `max_mem` | boxes of 4 with 32 bytes per voxel and a budget of 864: shrinks to 2 instead of stopping at 3 | shrink while over budget; grow while within budget, then step back one | not executed | RegionSize.ShrinkExample | RegionSize.RegionSearchFits |
