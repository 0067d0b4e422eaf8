/** `calculate_targets` of app.py: the valuation variant that averages all four
    historical multiples (a missing one counts as 0), scales the P/S target by the
    current P/S, measures undervaluation against the current price, and turns any
    exception into four zeros. */
module AppValuation {
  import opened Wrappers
  import opened PyBuiltins

  const PeKeys: seq<string> := ["pe1", "pe2", "pe3", "pe4"]
  const PsKeys: seq<string> := ["ps1", "ps2", "ps3", "ps4"]

  /** The four numbers `calculate_targets` returns: both targets and both
      undervaluation percentages. */
  datatype Targets = Targets(targetPe: real, targetPs: real, undervarderadPe: real, undervarderadPs: real)

  /** What an exception collapses the result to. */
  const Zeros := Targets(0.0, 0.0, 0.0, 0.0)

  /** `float(bolag.get(key, default))`. */
  function FieldAsFloat(bolag: Record, key: string, default: real): Option<real>
  {
    ToFloat(Get(bolag, key, PyFloat(default)))
  }

  /** `[float(bolag.get(k, 0)) for k in keys]`, or `None` when one conversion raises. */
  function FloatsOf(bolag: Record, keys: seq<string>): (r: Option<seq<real>>)
    ensures r.Some? <==> forall i :: 0 <= i < |keys| ==> FieldAsFloat(bolag, keys[i], 0.0).Some?
    ensures r.Some? ==> |r.value| == |keys|
    ensures r.Some? ==> forall i :: 0 <= i < |keys| ==> r.value[i] == FieldAsFloat(bolag, keys[i], 0.0).value
  {
    if keys == [] then Some([])
    else
      match (FieldAsFloat(bolag, keys[0], 0.0), FloatsOf(bolag, keys[1..]))
      case (Some(x), Some(rest)) => Some([x] + rest)
      case _ => None
  }

  /** The numbers `calculate_targets` reads, each converted with `float()`. */
  datatype Inputs = Inputs(pe: seq<real>, ps: seq<real>, vinstNastaAr: real, omsTillvNastaAr: real,
                           omsTillvIAr: real, kurs: real, ps0: real)

  /** Lines 21-29 of the source plus the `float(bolag.get("ps0", 1))` of line 32:
      every field missing from the record reads as 0, except the current P/S, which
      reads as 1; `None` when a conversion raises. */
  function ParseInputs(bolag: Record): (r: Option<Inputs>)
    ensures r.None? <==>
      || (exists i :: 0 <= i < |PeKeys| && FieldAsFloat(bolag, PeKeys[i], 0.0).None?)
      || (exists i :: 0 <= i < |PsKeys| && FieldAsFloat(bolag, PsKeys[i], 0.0).None?)
      || FieldAsFloat(bolag, "vinst_nasta_ar", 0.0).None?
      || FieldAsFloat(bolag, "oms_tillv_nasta_ar", 0.0).None?
      || FieldAsFloat(bolag, "oms_tillv_i_ar", 0.0).None?
      || FieldAsFloat(bolag, "kurs", 0.0).None?
      || FieldAsFloat(bolag, "ps0", 1.0).None?
    ensures r.Some? ==> |r.value.pe| == 4 && |r.value.ps| == 4
    ensures r.Some? ==> forall i :: 0 <= i < 4 ==>
      FieldAsFloat(bolag, PeKeys[i], 0.0) == Some(r.value.pe[i]) && FieldAsFloat(bolag, PsKeys[i], 0.0) == Some(r.value.ps[i])
    ensures r.Some? ==>
      && FieldAsFloat(bolag, "vinst_nasta_ar", 0.0) == Some(r.value.vinstNastaAr)
      && FieldAsFloat(bolag, "oms_tillv_nasta_ar", 0.0) == Some(r.value.omsTillvNastaAr)
      && FieldAsFloat(bolag, "oms_tillv_i_ar", 0.0) == Some(r.value.omsTillvIAr)
      && FieldAsFloat(bolag, "kurs", 0.0) == Some(r.value.kurs)
      && FieldAsFloat(bolag, "ps0", 1.0) == Some(r.value.ps0)
  {
    match (FloatsOf(bolag, PeKeys), FloatsOf(bolag, PsKeys), FieldAsFloat(bolag, "vinst_nasta_ar", 0.0),
           FieldAsFloat(bolag, "oms_tillv_nasta_ar", 0.0), FieldAsFloat(bolag, "oms_tillv_i_ar", 0.0),
           FieldAsFloat(bolag, "kurs", 0.0), FieldAsFloat(bolag, "ps0", 1.0))
    case (Some(pe), Some(ps), Some(v), Some(gn), Some(gi), Some(k), Some(p0)) => Some(Inputs(pe, ps, v, gn, gi, k, p0))
    case _ => None
  }

  /** The percentage by which `target` exceeds the current price, relative to the
      price. */
  function RelativeToPrice(target: real, kurs: real): (u: real)
    requires kurs != 0.0
    ensures u * kurs == (target - kurs) * 100.0
  {
    (target - kurs) / kurs * 100.0
  }

  /** `calculate_targets`. Any exception, whether a failed conversion or a division
      by a zero price or a zero current P/S, gives exactly four zeros. */
  function CalculateTargets(bolag: Record): (r: Targets)
    ensures ParseInputs(bolag).None? ==> r == Zeros
    ensures ParseInputs(bolag).Some? && (ParseInputs(bolag).value.kurs == 0.0 || ParseInputs(bolag).value.ps0 == 0.0)
            ==> r == Zeros
    ensures ParseInputs(bolag).Some? && ParseInputs(bolag).value.kurs != 0.0 && ParseInputs(bolag).value.ps0 != 0.0 ==>
      var inp := ParseInputs(bolag).value;
      && r.targetPe == Round2(TargetPe(inp))
      && r.targetPs == Round2(TargetPs(inp))
      && r.undervarderadPe == Round2(RelativeToPrice(TargetPe(inp), inp.kurs))
      && r.undervarderadPs == Round2(RelativeToPrice(TargetPs(inp), inp.kurs))
  {
    match ParseInputs(bolag)
    case None => Zeros
    case Some(inp) =>
      if inp.ps0 == 0.0 || inp.kurs == 0.0 then Zeros else Compute(inp)
  }

  /** The sum of four numbers. */
  lemma SumOfFour(s: seq<real>)
    requires |s| == 4
    ensures Sum(s) == s[0] + s[1] + s[2] + s[3]
  {
    var t1, t2, t3 := s[1..], s[2..], s[3..];
    assert t1[1..] == t2 && t2[1..] == t3 && t3[1..] == [];
    assert Sum(t3) == s[3];
    assert Sum(t2) == s[2] + s[3];
    assert Sum(t1) == s[1] + s[2] + s[3];
  }

  /** The P/E target of `inp`: next year's earnings times the plain average of all
      four P/E values. */
  function TargetPe(inp: Inputs): real
    requires |inp.pe| == 4
  {
    inp.vinstNastaAr * ((inp.pe[0] + inp.pe[1] + inp.pe[2] + inp.pe[3]) / 4.0)
  }

  /** The P/S target of `inp`: the price grown by next year's revenue growth alone,
      times the plain average of all four P/S values, divided by the current P/S. */
  function TargetPs(inp: Inputs): real
    requires |inp.ps| == 4 && inp.ps0 != 0.0
  {
    inp.kurs * (1.0 + inp.omsTillvNastaAr / 100.0) * ((inp.ps[0] + inp.ps[1] + inp.ps[2] + inp.ps[3]) / 4.0) / inp.ps0
  }

  lemma AveragedPe(inp: Inputs)
    requires |inp.pe| == 4
    ensures inp.vinstNastaAr * (Sum(inp.pe) / |inp.pe| as real) == TargetPe(inp)
  {
    SumOfFour(inp.pe);
  }

  lemma AveragedPs(inp: Inputs)
    requires |inp.ps| == 4 && inp.ps0 != 0.0
    ensures inp.kurs * (1.0 + inp.omsTillvNastaAr / 100.0) * (Sum(inp.ps) / |inp.ps| as real) / inp.ps0 == TargetPs(inp)
  {
    SumOfFour(inp.ps);
  }

  /** Lines 23-37 of the source once every conversion has succeeded and neither
      divisor is zero: both targets are the four-value averages above, rounded,
      and each percentage is the rounded distance of the unrounded target from
      the price, relative to the price. */
  function Compute(inp: Inputs): (r: Targets)
    requires |inp.pe| == 4 && |inp.ps| == 4
    requires inp.kurs != 0.0 && inp.ps0 != 0.0
    ensures r.targetPe == Round2(TargetPe(inp))
    ensures r.targetPs == Round2(TargetPs(inp))
    ensures r.undervarderadPe == Round2(RelativeToPrice(TargetPe(inp), inp.kurs))
    ensures r.undervarderadPs == Round2(RelativeToPrice(TargetPs(inp), inp.kurs))
  {
    var peAvg := Sum(inp.pe) / |inp.pe| as real;
    var psAvg := Sum(inp.ps) / |inp.ps| as real;
    var targetPe := inp.vinstNastaAr * peAvg;
    var targetPs := inp.kurs * (1.0 + inp.omsTillvNastaAr / 100.0) * psAvg / inp.ps0;
    AveragedPe(inp);
    AveragedPs(inp);
    var pe, ps := TargetPe(inp), TargetPs(inp);
    assert targetPe == pe && targetPs == ps;
    var uvPe, uvPs := RelativeToPrice(pe, inp.kurs), RelativeToPrice(ps, inp.kurs);
    assert (targetPe - inp.kurs) / inp.kurs * 100.0 == uvPe;
    assert (targetPs - inp.kurs) / inp.kurs * 100.0 == uvPs;
    Targets(Round2(targetPe), Round2(targetPs),
            Round2((targetPe - inp.kurs) / inp.kurs * 100.0), Round2((targetPs - inp.kurs) / inp.kurs * 100.0))
  }

  /** Two records on which every `float(bolag.get(...))` of `calculate_targets`
      gives the same outcome. */
  ghost predicate ReadAlike(b1: Record, b2: Record)
  {
    && (forall i :: 0 <= i < |PeKeys| ==> FieldAsFloat(b1, PeKeys[i], 0.0) == FieldAsFloat(b2, PeKeys[i], 0.0))
    && (forall i :: 0 <= i < |PsKeys| ==> FieldAsFloat(b1, PsKeys[i], 0.0) == FieldAsFloat(b2, PsKeys[i], 0.0))
    && FieldAsFloat(b1, "vinst_nasta_ar", 0.0) == FieldAsFloat(b2, "vinst_nasta_ar", 0.0)
    && FieldAsFloat(b1, "oms_tillv_nasta_ar", 0.0) == FieldAsFloat(b2, "oms_tillv_nasta_ar", 0.0)
    && FieldAsFloat(b1, "oms_tillv_i_ar", 0.0) == FieldAsFloat(b2, "oms_tillv_i_ar", 0.0)
    && FieldAsFloat(b1, "kurs", 0.0) == FieldAsFloat(b2, "kurs", 0.0)
    && FieldAsFloat(b1, "ps0", 1.0) == FieldAsFloat(b2, "ps0", 1.0)
  }

  lemma FloatsOfAlike(b1: Record, b2: Record, keys: seq<string>)
    requires forall i :: 0 <= i < |keys| ==> FieldAsFloat(b1, keys[i], 0.0) == FieldAsFloat(b2, keys[i], 0.0)
    ensures FloatsOf(b1, keys) == FloatsOf(b2, keys)
  {
    var r1, r2 := FloatsOf(b1, keys), FloatsOf(b2, keys);
    if r1.Some? {
      assert r1.value == r2.value;
    }
  }

  lemma FloatsOfValues(b: Record, keys: seq<string>, values: seq<real>)
    requires |values| == |keys|
    requires forall i :: 0 <= i < |keys| ==> FieldAsFloat(b, keys[i], 0.0) == Some(values[i])
    ensures FloatsOf(b, keys) == Some(values)
  {
    assert FloatsOf(b, keys).value == values;
  }

  /** Records that read alike convert to the same inputs. */
  lemma ParseInputsReadsOnly(b1: Record, b2: Record)
    requires ReadAlike(b1, b2)
    ensures ParseInputs(b1) == ParseInputs(b2)
  {
    FloatsOfAlike(b1, b2, PeKeys);
    FloatsOfAlike(b1, b2, PsKeys);
  }

  /** `calculate_targets` depends on nothing but the fields it converts: records
      that read alike get the same four numbers. */
  lemma CalculateTargetsReadsOnly(b1: Record, b2: Record)
    requires ReadAlike(b1, b2)
    ensures CalculateTargets(b1) == CalculateTargets(b2)
  {
    ParseInputsReadsOnly(b1, b2);
  }

  /** A historical multiple that is missing counts as a 0 in the average, exactly as
      a stored 0 does: zeros are averaged, not excluded. */
  lemma MissingMultipleCountsAsZero(bolag: Record, key: string)
    requires key in PeKeys || key in PsKeys
    requires key !in bolag
    ensures CalculateTargets(bolag) == CalculateTargets(bolag[key := PyFloat(0.0)])
  {
    CalculateTargetsReadsOnly(bolag, bolag[key := PyFloat(0.0)]);
  }

  /** A record without a current P/S is valued as if it stored 1. */
  lemma Ps0DefaultsToOne(bolag: Record)
    requires "ps0" !in bolag
    ensures CalculateTargets(bolag) == CalculateTargets(bolag["ps0" := PyFloat(1.0)])
  {
    CalculateTargetsReadsOnly(bolag, bolag["ps0" := PyFloat(1.0)]);
  }

  /** Every field `calculate_targets` reads. */
  const ReadKeys: set<string> :=
    {"pe1", "pe2", "pe3", "pe4", "ps1", "ps2", "ps3", "ps4",
     "vinst_nasta_ar", "oms_tillv_nasta_ar", "oms_tillv_i_ar", "kurs", "ps0"}

  /** A stored value of any field it reads that `float()` rejects (`None`, a word)
      makes `calculate_targets` fall back to all zeros. */
  lemma ConversionFailureGivesZeros(bolag: Record, key: string)
    requires key in ReadKeys && key in bolag && ToFloat(bolag[key]).None?
    ensures CalculateTargets(bolag) == Zeros
  {
    assert FieldAsFloat(bolag, key, 0.0).None? && FieldAsFloat(bolag, key, 1.0).None?;
    if key in PeKeys {
      var i :| 0 <= i < |PeKeys| && PeKeys[i] == key;
    } else if key in PsKeys {
      var i :| 0 <= i < |PsKeys| && PsKeys[i] == key;
    }
  }

  /** This year's revenue growth is converted (so a value that is not a number
      zeroes everything) but its value never enters a result. */
  lemma CurrentYearGrowthUnused(bolag: Record, x: real)
    requires FieldAsFloat(bolag, "oms_tillv_i_ar", 0.0).Some?
    ensures CalculateTargets(bolag["oms_tillv_i_ar" := PyFloat(x)]) == CalculateTargets(bolag)
  {
    var p1 := ParseInputs(bolag);
    ParseCurrentYearGrowth(bolag, x);
    if p1.Some? && p1.value.kurs != 0.0 && p1.value.ps0 != 0.0 {
      ComputeIgnoresCurrentYearGrowth(p1.value, x);
    }
  }

  lemma ParseCurrentYearGrowth(bolag: Record, x: real)
    requires FieldAsFloat(bolag, "oms_tillv_i_ar", 0.0).Some?
    ensures var p1, p2 := ParseInputs(bolag), ParseInputs(bolag["oms_tillv_i_ar" := PyFloat(x)]);
      && (p1.Some? <==> p2.Some?)
      && (p1.Some? ==> p2.value == p1.value.(omsTillvIAr := x))
  {
    var b2 := bolag["oms_tillv_i_ar" := PyFloat(x)];
    FloatsOfAlike(b2, bolag, PeKeys);
    FloatsOfAlike(b2, bolag, PsKeys);
    OtherFieldsAlike(bolag, x);
    var p1 := ParseInputs(bolag);
    if p1.Some? {
      ParseInputsOf(b2, p1.value.(omsTillvIAr := x));
    }
  }

  /** Writing this year's growth leaves every other converted field as it was. */
  lemma OtherFieldsAlike(bolag: Record, x: real)
    ensures var b2 := bolag["oms_tillv_i_ar" := PyFloat(x)];
      && FieldAsFloat(b2, "vinst_nasta_ar", 0.0) == FieldAsFloat(bolag, "vinst_nasta_ar", 0.0)
      && FieldAsFloat(b2, "oms_tillv_nasta_ar", 0.0) == FieldAsFloat(bolag, "oms_tillv_nasta_ar", 0.0)
      && FieldAsFloat(b2, "kurs", 0.0) == FieldAsFloat(bolag, "kurs", 0.0)
      && FieldAsFloat(b2, "ps0", 1.0) == FieldAsFloat(bolag, "ps0", 1.0)
      && FieldAsFloat(b2, "oms_tillv_i_ar", 0.0) == Some(x)
      && (forall i :: 0 <= i < |PeKeys| ==> FieldAsFloat(b2, PeKeys[i], 0.0) == FieldAsFloat(bolag, PeKeys[i], 0.0))
      && (forall i :: 0 <= i < |PsKeys| ==> FieldAsFloat(b2, PsKeys[i], 0.0) == FieldAsFloat(bolag, PsKeys[i], 0.0))
  {
  }

  lemma ComputeIgnoresCurrentYearGrowth(inp: Inputs, x: real)
    requires |inp.pe| == 4 && |inp.ps| == 4
    requires inp.kurs != 0.0 && inp.ps0 != 0.0
    ensures Compute(inp.(omsTillvIAr := x)) == Compute(inp)
  {
    var inp2 := inp.(omsTillvIAr := x);
    assert TargetPe(inp2) == TargetPe(inp) && TargetPs(inp2) == TargetPs(inp);
  }

  /** The percentage is measured against the current price: a target equal to the
      price gives 0, and a positive rounded percentage means the target is above
      a positive price. */
  lemma UndervarderadRelativeToPrice(inp: Inputs)
    requires |inp.pe| == 4 && |inp.ps| == 4
    requires inp.kurs > 0.0 && inp.ps0 != 0.0
    ensures var r := Compute(inp);
      && (TargetPe(inp) == inp.kurs ==> r.undervarderadPe == 0.0)
      && (r.undervarderadPe > 0.0 ==> TargetPe(inp) > inp.kurs)
      && (TargetPs(inp) == inp.kurs ==> r.undervarderadPs == 0.0)
      && (r.undervarderadPs > 0.0 ==> TargetPs(inp) > inp.kurs)
  {
    PositiveMeansAbovePrice(TargetPe(inp), inp.kurs);
    PositiveMeansAbovePrice(TargetPs(inp), inp.kurs);
  }

  lemma PositiveMeansAbovePrice(target: real, kurs: real)
    requires kurs > 0.0
    ensures target == kurs ==> Round2(RelativeToPrice(target, kurs)) == 0.0
    ensures Round2(RelativeToPrice(target, kurs)) > 0.0 ==> target > kurs
  {
    var u := RelativeToPrice(target, kurs);
    Round2Zero();
    if u <= 0.0 {
      Round2Monotone(u, 0.0);
    }
    if target == kurs {
      assert u == 0.0;
    }
  }

  /** A record with nothing in it has price 0, so the division by the price raises
      and the result is four zeros. */
  lemma EmptyRecordGivesZeros()
    ensures CalculateTargets(map[]) == Zeros
  {
    assert FieldAsFloat(map[], "kurs", 0.0) == Some(0.0);
  }

  /** A record with earnings 10, P/E values 12 and 8 and a price of 100, and
      nothing else. */
  function ExampleRecord(): Record
  {
    map["kurs" := PyFloat(100.0), "vinst_nasta_ar" := PyFloat(10.0), "pe1" := PyFloat(12.0), "pe2" := PyFloat(8.0)]
  }

  /** The inputs are exactly the conversions of the fields they come from. */
  lemma ParseInputsOf(b: Record, inp: Inputs)
    requires FloatsOf(b, PeKeys) == Some(inp.pe) && FloatsOf(b, PsKeys) == Some(inp.ps)
    requires FieldAsFloat(b, "vinst_nasta_ar", 0.0) == Some(inp.vinstNastaAr)
    requires FieldAsFloat(b, "oms_tillv_nasta_ar", 0.0) == Some(inp.omsTillvNastaAr)
    requires FieldAsFloat(b, "oms_tillv_i_ar", 0.0) == Some(inp.omsTillvIAr)
    requires FieldAsFloat(b, "kurs", 0.0) == Some(inp.kurs)
    requires FieldAsFloat(b, "ps0", 1.0) == Some(inp.ps0)
    ensures ParseInputs(b) == Some(inp)
  {
  }

  lemma ExampleInputs()
    ensures ParseInputs(ExampleRecord()) == Some(Inputs([12.0, 8.0, 0.0, 0.0], [0.0, 0.0, 0.0, 0.0], 10.0, 0.0, 0.0, 100.0, 1.0))
  {
    ExamplePeValues();
    ExamplePsValues();
    ExampleScalars();
    ParseInputsOf(ExampleRecord(), Inputs([12.0, 8.0, 0.0, 0.0], [0.0, 0.0, 0.0, 0.0], 10.0, 0.0, 0.0, 100.0, 1.0));
  }

  lemma ExampleScalars()
    ensures FieldAsFloat(ExampleRecord(), "vinst_nasta_ar", 0.0) == Some(10.0)
    ensures FieldAsFloat(ExampleRecord(), "oms_tillv_nasta_ar", 0.0) == Some(0.0)
    ensures FieldAsFloat(ExampleRecord(), "oms_tillv_i_ar", 0.0) == Some(0.0)
    ensures FieldAsFloat(ExampleRecord(), "kurs", 0.0) == Some(100.0)
    ensures FieldAsFloat(ExampleRecord(), "ps0", 1.0) == Some(1.0)
  {
    var b := ExampleRecord();
    assert "oms_tillv_nasta_ar" !in b && "oms_tillv_i_ar" !in b && "ps0" !in b;
  }

  lemma ExamplePeValues()
    ensures FloatsOf(ExampleRecord(), PeKeys) == Some([12.0, 8.0, 0.0, 0.0])
  {
    var b := ExampleRecord();
    assert FieldAsFloat(b, "pe1", 0.0) == Some(12.0);
    assert FieldAsFloat(b, "pe2", 0.0) == Some(8.0);
    assert FieldAsFloat(b, "pe3", 0.0) == Some(0.0);
    assert FieldAsFloat(b, "pe4", 0.0) == Some(0.0);
    FloatsOfValues(b, PeKeys, [12.0, 8.0, 0.0, 0.0]);
  }

  lemma ExamplePsValues()
    ensures FloatsOf(ExampleRecord(), PsKeys) == Some([0.0, 0.0, 0.0, 0.0])
  {
    var b := ExampleRecord();
    assert forall i :: 0 <= i < 4 ==> PsKeys[i] !in b;
    FloatsOfValues(b, PsKeys, [0.0, 0.0, 0.0, 0.0]);
  }

  /** For the record above the two missing P/E values are averaged in as zeros, so
      the P/E target is 10 * 20 / 4 = 50 (not 100) and 50 % below the price; the
      missing P/S values give a P/S target of 0, that is -100 %. */
  lemma ZerosAreAveraged()
    ensures CalculateTargets(ExampleRecord()) == Targets(50.0, 0.0, -50.0, -100.0)
  {
    ExampleInputs();
    var inp := Inputs([12.0, 8.0, 0.0, 0.0], [0.0, 0.0, 0.0, 0.0], 10.0, 0.0, 0.0, 100.0, 1.0);
    assert TargetPe(inp) == 50.0 && TargetPs(inp) == 0.0;
    assert RelativeToPrice(50.0, 100.0) == -50.0;
    assert RelativeToPrice(0.0, 100.0) == -100.0;
    Round2Cents(5000);
    Round2Cents(0);
    Round2Cents(-5000);
    Round2Cents(-10000);
  }
}
