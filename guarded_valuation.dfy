/** The `None`-guarded valuation formulas of Utils.py. An argument is either
    Python's `None` or a number; every formula returns `None` when one of its
    inputs is `None` (or the division would fail) and is otherwise unrounded. */
module GuardedValuation {
  import opened Wrappers
  import opened PyBuiltins

  /** The P/E target both modules compute: earnings times the mean multiple. */
  function PeTarget(vinst: real, peA: real, peB: real): (t: real)
    ensures t == vinst * Mean([peA, peB])
  {
    MeanOfTwo(peA, peB);
    vinst * ((peA + peB) / 2.0)
  }

  /** The P/S target both modules compute: the mean multiple times one plus the
      mean growth (a percentage), times the price. */
  function PsTarget(psA: real, psB: real, gA: real, gB: real, kurs: real): (t: real)
    ensures t == Mean([psA, psB]) * (1.0 + Mean([gA, gB]) / 100.0) * kurs
  {
    MeanOfTwo(psA, psB);
    MeanOfTwo(gA, gB);
    (psA + psB) / 2.0 * (1.0 + (gA + gB) / 2.0 / 100.0) * kurs
  }

  /** `calculate_targetkurs_pe`: next year's earnings times the mean of the two
      historical P/E multiples. */
  function CalculateTargetkursPe(vinstNastaar: Option<real>, pe1: Option<real>, pe2: Option<real>): (r: Option<real>)
    ensures r.None? <==> vinstNastaar.None? || pe1.None? || pe2.None?
    ensures r.Some? ==> r.value == vinstNastaar.value * Mean([pe1.value, pe2.value])
  {
    if vinstNastaar.None? || pe1.None? || pe2.None? then None
    else Some(PeTarget(vinstNastaar.value, pe1.value, pe2.value))
  }

  /** `calculate_targetkurs_ps`: mean P/S times one plus the mean revenue growth
      (a percentage) times the current price. */
  function CalculateTargetkursPs(ps1: Option<real>, ps2: Option<real>, omsTillv1: Option<real>,
                                 omsTillv2: Option<real>, nuvKurs: Option<real>): (r: Option<real>)
    ensures r.None? <==> ps1.None? || ps2.None? || omsTillv1.None? || omsTillv2.None? || nuvKurs.None?
    ensures r.Some? ==>
      r.value == Mean([ps1.value, ps2.value]) * (1.0 + Mean([omsTillv1.value, omsTillv2.value]) / 100.0) * nuvKurs.value
  {
    if ps1.None? || ps2.None? || omsTillv1.None? || omsTillv2.None? || nuvKurs.None? then None
    else Some(PsTarget(ps1.value, ps2.value, omsTillv1.value, omsTillv2.value, nuvKurs.value))
  }

  /** `calculate_undervardering`: how far the price lies below the target, as a
      percentage of the target. */
  function CalculateUndervardering(nuvKurs: Option<real>, targetKurs: Option<real>): (r: Option<real>)
    ensures r.None? <==> nuvKurs.None? || targetKurs.None? || targetKurs.value == 0.0
    ensures r.Some? ==> r.value * targetKurs.value == (targetKurs.value - nuvKurs.value) * 100.0
  {
    if nuvKurs.None? || targetKurs.None? || targetKurs.value == 0.0 then None
    else Some((targetKurs.value - nuvKurs.value) / targetKurs.value * 100.0)
  }

  /** The two growth rates enter only through their mean: they are averaged, not
      compounded. */
  lemma GrowthAveragedNotCompounded(ps1: real, ps2: real, g1: real, g2: real, kurs: real)
    ensures var m := (g1 + g2) / 2.0;
      CalculateTargetkursPs(Some(ps1), Some(ps2), Some(g1), Some(g2), Some(kurs))
      == CalculateTargetkursPs(Some(ps1), Some(ps2), Some(m), Some(m), Some(kurs))
  {
    var m := (g1 + g2) / 2.0;
    MeanOfTwo(g1, g2);
    MeanOfTwo(m, m);
    assert Mean([g1, g2]) == Mean([m, m]);
    var r1 := CalculateTargetkursPs(Some(ps1), Some(ps2), Some(g1), Some(g2), Some(kurs));
    var r2 := CalculateTargetkursPs(Some(ps1), Some(ps2), Some(m), Some(m), Some(kurs));
    assert r1.value == r2.value;
  }

  /** A price equal to a non-zero target is exactly 0 % undervalued. */
  lemma UndervarderingZeroAtTarget(p: real)
    requires p != 0.0
    ensures CalculateUndervardering(Some(p), Some(p)) == Some(0.0)
  {
  }

  /** The result is not clamped: for a positive target it is positive exactly when
      the price is below the target and negative exactly when it is above. */
  lemma UndervarderingSign(kurs: real, target: real)
    requires target > 0.0
    ensures var u := CalculateUndervardering(Some(kurs), Some(target)).value;
      (u > 0.0 <==> kurs < target) && (u < 0.0 <==> kurs > target)
  {
    var u := CalculateUndervardering(Some(kurs), Some(target)).value;
    assert u * target == (target - kurs) * 100.0;
  }

  /** The percentage and the target determine the price again:
      `kurs == target * (1 - u / 100)`. */
  lemma UndervarderingRecoversPrice(kurs: real, target: real)
    requires target != 0.0
    ensures var u := CalculateUndervardering(Some(kurs), Some(target)).value;
      target * (1.0 - u / 100.0) == kurs
  {
    var u := CalculateUndervardering(Some(kurs), Some(target)).value;
    assert u * target == (target - kurs) * 100.0;
    calc {
      target * (1.0 - u / 100.0);
      target - u * target / 100.0;
      kurs;
    }
  }

  /** For a non-negative price and a positive target the percentage is at most 100,
      reached only at a price of 0. */
  lemma UndervarderingAtMostHundred(kurs: real, target: real)
    requires kurs >= 0.0 && target > 0.0
    ensures var u := CalculateUndervardering(Some(kurs), Some(target)).value;
      u <= 100.0 && (u == 100.0 <==> kurs == 0.0)
  {
    var u := CalculateUndervardering(Some(kurs), Some(target)).value;
    assert u * target == (target - kurs) * 100.0;
  }

  /** Earnings 10 and P/E multiples 12 and 8 give a target of 100, and a price of
      100 is then 0 % undervalued. */
  lemma PeExample()
    ensures CalculateTargetkursPe(Some(10.0), Some(12.0), Some(8.0)) == Some(100.0)
    ensures CalculateUndervardering(Some(100.0), Some(100.0)) == Some(0.0)
  {
  }
}
