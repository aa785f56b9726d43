/** How many pixels the stochastic Jacobian samples (`get_num_px_jtj`). */
module PixelBudget {
  import opened Wrappers
  import opened Numeric

  /** Pixels that fit in the memory ceiling, 8 bytes per float per
      parameter: `int(max_mem / 8 / nparams)`. */
  function PxMem(maxMem: real, nparams: nat): int
    requires nparams > 0
  {
    Trunc(maxMem / 8.0 / nparams as real)
  }

  /** Pixels needed for the minimum redundancy: `min_redundant * nparams`. */
  function PxRed(minRedundant: int, nparams: nat): int
  {
    minRedundant * nparams
  }

  /** Pixels wanted by the decimation factor: Python 2 `size / decimate`. */
  function PxDec(innerSize: nat, decimate: int): int
    requires decimate != 0
  {
    FloorDiv(innerSize, decimate)
  }

  /** `get_num_px_jtj`: the decimated count clipped into the interval
      [redundancy bound, memory bound]; a RuntimeError when that interval is
      empty; division by a zero parameter count or decimation factor fails
      as in Python. */
  function GetNumPxJtj(innerSize: nat, nparams: nat, decimate: int, maxMem: real,
                       minRedundant: int): (r: Result<int>)
    ensures nparams == 0 || decimate == 0 ==> r.Err? && r.failure.ArithmeticError?
    ensures nparams > 0 && decimate != 0 ==>
      (r.Err? <==> PxRed(minRedundant, nparams) > PxMem(maxMem, nparams))
    ensures r.Err? && nparams > 0 && decimate != 0 ==>
      r.failure == RuntimeError("Insufficient max_mem for desired redundancy.")
    ensures r.Ok? ==>
      PxRed(minRedundant, nparams) <= r.value <= PxMem(maxMem, nparams)
    ensures r.Ok? && PxRed(minRedundant, nparams) <= PxDec(innerSize, decimate) <= PxMem(maxMem, nparams) ==>
      r.value == PxDec(innerSize, decimate)
  {
    if nparams == 0 then Err(ArithmeticError("float division by zero"))
    else
      var pxMem := PxMem(maxMem, nparams);
      var pxRed := PxRed(minRedundant, nparams);
      if decimate == 0 then Err(ArithmeticError("integer division or modulo by zero"))
      else
        var pxDec := PxDec(innerSize, decimate);
        if pxRed > pxMem then Err(RuntimeError("Insufficient max_mem for desired redundancy."))
        else Ok(IClip(pxDec, pxRed, pxMem))
  }

  function Abs(x: int): nat { if x < 0 then -x else x }

  /** The clipped count is the admissible pixel count closest to the
      decimated one: no count in [redundancy bound, memory bound] is nearer. */
  lemma NumPxIsClosestAdmissible(innerSize: nat, nparams: nat, decimate: int, maxMem: real,
                                 minRedundant: int, v: int)
    requires GetNumPxJtj(innerSize, nparams, decimate, maxMem, minRedundant).Ok?
    requires PxRed(minRedundant, nparams) <= v <= PxMem(maxMem, nparams)
    ensures Abs(GetNumPxJtj(innerSize, nparams, decimate, maxMem, minRedundant).value - PxDec(innerSize, decimate))
            <= Abs(v - PxDec(innerSize, decimate))
  {
  }

  /** With a memory ceiling of 1e3 bytes, a redundancy factor of 1e6 and ten
      parameters no pixel count is admissible. */
  lemma TinyMemoryIsRejected()
    ensures GetNumPxJtj(1000000, 10, 400, 1000.0, 1000000).Err?
  {
    assert PxMem(1000.0, 10) == 12;
  }

  /** With the defaults (decimate 400, 2e9 bytes, redundancy 20) and ten
      parameters, an interior of 10^6 pixels yields 2500 sampled pixels. */
  lemma DefaultBudgetExample()
    ensures GetNumPxJtj(1000000, 10, 400, 2000000000.0, 20) == Ok(2500)
  {
    assert PxMem(2000000000.0, 10) == 25000000;
  }
}
