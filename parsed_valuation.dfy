/** The valuation formulas of utils.py. Each argument is whatever the caller passed;
    it is converted with `float()`, and a conversion that raises makes the result
    `None`. Targets are rounded to two decimals. */
module ParsedValuation {
  import opened Wrappers
  import opened PyBuiltins
  import GuardedValuation

  /** `Some(round(x, 2))` for `Some(x)`; `None` stays `None`. */
  function RoundOption(v: Option<real>): (r: Option<real>)
    ensures r.None? <==> v.None?
    ensures r.Some? ==> -0.005 <= r.value - v.value <= 0.005
  {
    match v
    case None => None
    case Some(x) => Some(Round2(x))
  }

  /** `berakna_targetkurs_pe`: the P/E formula of Utils.py applied to the `float()`
      of each argument, rounded to two decimals; `None` when a conversion raises. */
  function BeraknaTargetkursPe(vinstNastaar: PyValue, pe1: PyValue, pe2: PyValue): (r: Option<real>)
    ensures r.None? <==> ToFloat(vinstNastaar).None? || ToFloat(pe1).None? || ToFloat(pe2).None?
    ensures r == RoundOption(GuardedValuation.CalculateTargetkursPe(ToFloat(vinstNastaar), ToFloat(pe1), ToFloat(pe2)))
  {
    var p1, p2, v := ToFloat(pe1), ToFloat(pe2), ToFloat(vinstNastaar);
    if p1.None? || p2.None? || v.None? then None
    else Some(Round2(GuardedValuation.PeTarget(v.value, p1.value, p2.value)))
  }

  /** `berakna_targetkurs_ps`: the P/S formula of Utils.py applied to the `float()`
      of each argument, rounded to two decimals; `None` when a conversion raises.
      The first argument, the current P/S, is never read. */
  function BeraknaTargetkursPs(nuvarandePs: PyValue, ps1: PyValue, ps2: PyValue, omsattningstillvaxt1: PyValue,
                               omsattningstillvaxt2: PyValue, nuvarandeKurs: PyValue): (r: Option<real>)
    ensures r.None? <==>
      || ToFloat(ps1).None? || ToFloat(ps2).None?
      || ToFloat(omsattningstillvaxt1).None? || ToFloat(omsattningstillvaxt2).None?
      || ToFloat(nuvarandeKurs).None?
    ensures r == RoundOption(GuardedValuation.CalculateTargetkursPs(ToFloat(ps1), ToFloat(ps2),
                   ToFloat(omsattningstillvaxt1), ToFloat(omsattningstillvaxt2), ToFloat(nuvarandeKurs)))
  {
    var p1, p2 := ToFloat(ps1), ToFloat(ps2);
    var g1, g2, k := ToFloat(omsattningstillvaxt1), ToFloat(omsattningstillvaxt2), ToFloat(nuvarandeKurs);
    if p1.None? || p2.None? || g1.None? || g2.None? || k.None? then None
    else Some(Round2(GuardedValuation.PsTarget(p1.value, p2.value, g1.value, g2.value, k.value)))
  }

  /** One of the two `try` blocks of `berakna_undervardering`: a target contributes
      only when it is a number above 0 (`None`, 0 and the empty string are falsy,
      and comparing any other string with 0 raises TypeError, which is swallowed),
      and only when the current price converts with `float()`. */
  function Contribution(nuvarandeKurs: PyValue, targetkurs: PyValue): (c: Option<real>)
    ensures c.Some? <==> targetkurs.PyFloat? && targetkurs.x > 0.0 && ToFloat(nuvarandeKurs).Some?
    ensures c.Some? ==> c.value * targetkurs.x == (targetkurs.x - ToFloat(nuvarandeKurs).value) * 100.0
  {
    if targetkurs.PyFloat? && targetkurs.x > 0.0 then
      match ToFloat(nuvarandeKurs)
      case None => None
      case Some(k) => Some((targetkurs.x - k) / targetkurs.x * 100.0)
    else
      None
  }

  /** `berakna_undervardering`: collects the percentage of each contributing method
      in a list and returns the largest, rounded to two decimals, or `None` when the
      list stays empty. */
  method BeraknaUndervardering(nuvarandeKurs: PyValue, targetkursPe: PyValue, targetkursPs: PyValue)
    returns (r: Option<real>)
    ensures var pe, ps := Contribution(nuvarandeKurs, targetkursPe), Contribution(nuvarandeKurs, targetkursPs);
      && (r.None? <==> pe.None? && ps.None?)
      && (pe.Some? && ps.Some? ==> r == Some(Round2(Max(pe.value, ps.value))))
      && (pe.Some? && ps.None? ==> r == Some(Round2(pe.value)))
      && (pe.None? && ps.Some? ==> r == Some(Round2(ps.value)))
  {
    var undervarderinger: seq<real> := [];
    var pe := Contribution(nuvarandeKurs, targetkursPe);
    if pe.Some? {
      undervarderinger := undervarderinger + [pe.value];
    }
    var ps := Contribution(nuvarandeKurs, targetkursPs);
    if ps.Some? {
      undervarderinger := undervarderinger + [ps.value];
    }
    if |undervarderinger| > 0 {
      r := Some(Round2(MaxOf(undervarderinger)));
    } else {
      r := None;
    }
  }

  /** The combined result is never below either contributing method's own
      percentage, each rounded the same way: it is a maximum, not an average. */
  lemma UndervarderingIsMax(nuvarandeKurs: PyValue, targetkursPe: PyValue, targetkursPs: PyValue, r: Option<real>)
    requires var pe, ps := Contribution(nuvarandeKurs, targetkursPe), Contribution(nuvarandeKurs, targetkursPs);
      && (r.None? <==> pe.None? && ps.None?)
      && (pe.Some? && ps.Some? ==> r == Some(Round2(Max(pe.value, ps.value))))
      && (pe.Some? && ps.None? ==> r == Some(Round2(pe.value)))
      && (pe.None? && ps.Some? ==> r == Some(Round2(ps.value)))
    ensures var pe := Contribution(nuvarandeKurs, targetkursPe); pe.Some? ==> r.Some? && Round2(pe.value) <= r.value
    ensures var ps := Contribution(nuvarandeKurs, targetkursPs); ps.Some? ==> r.Some? && Round2(ps.value) <= r.value
  {
    var pe, ps := Contribution(nuvarandeKurs, targetkursPe), Contribution(nuvarandeKurs, targetkursPs);
    if pe.Some? && ps.Some? {
      Round2Monotone(pe.value, Max(pe.value, ps.value));
      Round2Monotone(ps.value, Max(pe.value, ps.value));
    }
  }

  /** A method whose target equals the current price contributes exactly 0. */
  lemma ContributionZeroAtTarget(p: real)
    requires p > 0.0
    ensures Contribution(PyFloat(p), PyFloat(p)) == Some(0.0)
  {
  }

  /** The P/E target is next year's earnings times the mean P/E to within half a
      hundredth. */
  lemma PeWithinRounding(vinstNastaar: real, pe1: real, pe2: real)
    ensures var r := BeraknaTargetkursPe(PyFloat(vinstNastaar), PyFloat(pe1), PyFloat(pe2));
      r.Some? && -0.005 <= r.value - vinstNastaar * Mean([pe1, pe2]) <= 0.005
  {
  }

  /** The current P/S passed first has no effect on the P/S target. */
  lemma PsIgnoresCurrentPs(a: PyValue, b: PyValue, ps1: PyValue, ps2: PyValue, g1: PyValue, g2: PyValue, kurs: PyValue)
    ensures BeraknaTargetkursPs(a, ps1, ps2, g1, g2, kurs) == BeraknaTargetkursPs(b, ps1, ps2, g1, g2, kurs)
  {
  }

  /** A string that is not a numeral makes the target `None` instead of raising. */
  lemma UnparseableGivesNone(pe1: PyValue, pe2: PyValue)
    ensures BeraknaTargetkursPe(PyStr("n/a"), pe1, pe2) == None
  {
  }
}
