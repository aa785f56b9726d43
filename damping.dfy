/** The decision rule shared by `do_levmarq` and `do_levmarq_particles`:
    after trying the steps d0 (damping `damp`) and d1 (damping
    `damp * ddamp`), judge the pass and update the damping. The pass
    counter, which the source advances by 1 on a good pass and by 0.1 on a
    bad one, is kept here in whole tenths. */
module Damping {
  import opened Numeric

  /** The four outcomes of a pass. */
  datatype Verdict =
    | BadInvert   // both steps worse, d0 better than d1: invert ddamp
    | BadShrink   // both steps worse, d1 at least as good: damp *= ddamp^2
    | KeepD0      // an improvement, d0 strictly better: go back to p0 + d0
    | KeepD1      // an improvement, d1 at least as good: keep it, damp *= ddamp
  {
    predicate Bad() { BadInvert? || BadShrink? }
  }

  /** Judging the errors err0 and err1 of the two trial steps against the
      error errStart at the start of the pass. */
  function Judge(errStart: real, err0: real, err1: real): (v: Verdict)
    ensures v.Bad() <==> Min(err0, err1) > errStart
    ensures v == BadInvert <==> v.Bad() && err0 < err1
    ensures v == KeepD0 <==> !v.Bad() && err0 < err1
  {
    if Min(err0, err1) > errStart then
      if err0 < err1 then BadInvert else BadShrink
    else if err0 < err1 then KeepD0
    else KeepD1
  }

  /** The error of the parameters a pass leaves in place. */
  function Kept(v: Verdict, errStart: real, err0: real, err1: real): real
  {
    match v
    case BadInvert => errStart
    case BadShrink => errStart
    case KeepD0 => err0
    case KeepD1 => err1
  }

  /** Whatever the verdict, the error kept is the smallest of the three and
      so never above the error at the start of the pass. */
  lemma KeptIsBest(errStart: real, err0: real, err1: real)
    ensures var e := Kept(Judge(errStart, err0, err1), errStart, err0, err1);
      e <= errStart && e == Min(errStart, Min(err0, err1))
  {
  }

  /** On equal trial errors the step with the smaller damping, d1, is kept. */
  lemma TieKeepsD1(errStart: real, e: real)
    requires e <= errStart
    ensures Judge(errStart, e, e) == KeepD1
  {
  }

  /** The damping state carried from pass to pass. */
  datatype Damping = Damping(damp: real, ddamp: real, tenths: nat, recalcJ: bool)

  /** The update after a pass with verdict v. */
  function Next(d: Damping, v: Verdict): (e: Damping)
    requires v == BadInvert ==> d.ddamp != 0.0
    ensures e.tenths == d.tenths + (if v.Bad() then 1 else 10)
    ensures e.recalcJ <==> !v.Bad()
  {
    match v
    case BadInvert => Damping(d.damp, 1.0 / d.ddamp, d.tenths + 1, false)
    case BadShrink => Damping(d.damp * (d.ddamp * d.ddamp), d.ddamp, d.tenths + 1, false)
    case KeepD0 => Damping(d.damp, d.ddamp, d.tenths + 10, true)
    case KeepD1 => Damping(d.damp * d.ddamp, d.ddamp, d.tenths + 10, true)
  }

  /** The documented ranges damp >= 0 and ddamp > 0 are kept by every pass. */
  lemma NextKeepsRanges(d: Damping, v: Verdict)
    requires d.damp >= 0.0 && d.ddamp > 0.0
    ensures Next(d, v).damp >= 0.0 && Next(d, v).ddamp > 0.0
  {
    if v == BadShrink {
      assert d.ddamp * d.ddamp > 0.0;
    } else if v == KeepD1 {
      assert d.damp * d.ddamp >= 0.0;
    }
  }

  /** Two inversions in a row give back the original ddamp. */
  lemma InvertTwice(d: Damping)
    requires d.ddamp != 0.0
    ensures Next(Next(d, BadInvert), BadInvert).ddamp == d.ddamp
  {
    var e := Next(d, BadInvert);
    assert e.ddamp * d.ddamp == 1.0;
  }

  /** `while counter < num_iter`. */
  predicate Running(d: Damping, numIter: int)
  {
    d.tenths < 10 * numIter
  }

  /** Tenths that remain before the loop stops: every pass spends at least one. */
  function Budget(d: Damping, numIter: int): nat
  {
    if Running(d, numIter) then 10 * numIter - d.tenths else 0
  }

  lemma NextSpendsBudget(d: Damping, v: Verdict, numIter: int)
    requires (v == BadInvert ==> d.ddamp != 0.0) && Running(d, numIter)
    ensures Budget(Next(d, v), numIter) < Budget(d, numIter)
  {
  }
}
