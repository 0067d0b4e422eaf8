/** The record handling inside `main` of app.py: the session's dict of companies
    keyed by exact name, the form upsert, the annotation and ranking of every
    company, the "show all" filter and the wrap-around browsing index. */
module AppSession {
  import opened Wrappers
  import opened PyBuiltins
  import opened AppValuation
  import opened Sequences

  const TargetPeKey := "target_pe"
  const TargetPsKey := "target_ps"
  const UvPeKey := "undervärdering_pe"
  const UvPsKey := "undervärdering_ps"

  /** The four P/E or four P/S inputs of the form. */
  type Four = s: seq<real> | |s| == 4 witness [0.0, 0.0, 0.0, 0.0]

  /** What the add/update form hands over on submit (the company name apart). */
  datatype Form = Form(kurs: real, vinstIfjol: real, vinstIar: real, vinstNastaAr: real, omsIfjol: real,
                       omsTillvIAr: real, omsTillvNastaAr: real, pe0: real, peValues: Four,
                       ps0: real, psValues: Four)

  /** The ten fields written in one go by an upsert, `senast_andrad` being the date
      of the change. */
  function BaseRecord(f: Form, today: string): Record
  {
    map["kurs" := PyFloat(f.kurs), "vinst_ifjol" := PyFloat(f.vinstIfjol), "vinst_iar" := PyFloat(f.vinstIar),
        "vinst_nasta_ar" := PyFloat(f.vinstNastaAr), "oms_ifjol" := PyFloat(f.omsIfjol),
        "oms_tillv_i_ar" := PyFloat(f.omsTillvIAr), "oms_tillv_nasta_ar" := PyFloat(f.omsTillvNastaAr),
        "pe0" := PyFloat(f.pe0), "ps0" := PyFloat(f.ps0), "senast_andrad" := PyStr(today)]
  }

  /** The whole record an upsert stores: the ten fields and pe1..pe4, ps1..ps4. */
  function FormRecord(f: Form, today: string): Record
  {
    BaseRecord(f, today)["pe1" := PyFloat(f.peValues[0])]["ps1" := PyFloat(f.psValues[0])]
                        ["pe2" := PyFloat(f.peValues[1])]["ps2" := PyFloat(f.psValues[1])]
                        ["pe3" := PyFloat(f.peValues[2])]["ps3" := PyFloat(f.psValues[2])]
                        ["pe4" := PyFloat(f.peValues[3])]["ps4" := PyFloat(f.psValues[3])]
  }

  /** `rec` after the first `n` rounds of the loop that adds the multiples. */
  function WithMultiples(rec: Record, f: Form, n: nat): Record
    requires n <= 4
  {
    if n == 0 then rec
    else WithMultiples(rec, f, n - 1)[PeKeys[n - 1] := PyFloat(f.peValues[n - 1])][PsKeys[n - 1] := PyFloat(f.psValues[n - 1])]
  }

  lemma WithAllMultiples(f: Form, today: string)
    ensures WithMultiples(BaseRecord(f, today), f, 4) == FormRecord(f, today)
  {
    var b := BaseRecord(f, today);
    assert PeKeys[0] == "pe1" && PeKeys[1] == "pe2" && PeKeys[2] == "pe3" && PeKeys[3] == "pe4";
    assert PsKeys[0] == "ps1" && PsKeys[1] == "ps2" && PsKeys[2] == "ps3" && PsKeys[3] == "ps4";
    assert WithMultiples(b, f, 1) == b["pe1" := PyFloat(f.peValues[0])]["ps1" := PyFloat(f.psValues[0])];
    assert WithMultiples(b, f, 2) == WithMultiples(b, f, 1)["pe2" := PyFloat(f.peValues[1])]["ps2" := PyFloat(f.psValues[1])];
    assert WithMultiples(b, f, 3) == WithMultiples(b, f, 2)["pe3" := PyFloat(f.peValues[2])]["ps3" := PyFloat(f.psValues[2])];
  }

  /** The stored record holds the form's multiples under pe1..pe4 and ps1..ps4. */
  lemma FormRecordMultiples(f: Form, today: string)
    ensures forall i :: 0 <= i < 4 ==> FormRecord(f, today)[PeKeys[i]] == PyFloat(f.peValues[i])
    ensures forall i :: 0 <= i < 4 ==> FormRecord(f, today)[PsKeys[i]] == PyFloat(f.psValues[i])
  {
    var rec := FormRecord(f, today);
    assert rec["pe1"] == PyFloat(f.peValues[0]) && rec["ps1"] == PyFloat(f.psValues[0]);
    assert rec["pe2"] == PyFloat(f.peValues[1]) && rec["ps2"] == PyFloat(f.psValues[1]);
    assert rec["pe3"] == PyFloat(f.peValues[2]) && rec["ps3"] == PyFloat(f.psValues[2]);
    assert rec["pe4"] == PyFloat(f.peValues[3]) && rec["ps4"] == PyFloat(f.psValues[3]);
  }

  /** The stored record holds the form's price, current P/S and growth figures. */
  lemma FormRecordScalars(f: Form, today: string)
    ensures FormRecord(f, today)["kurs"] == PyFloat(f.kurs)
    ensures FormRecord(f, today)["ps0"] == PyFloat(f.ps0)
    ensures FormRecord(f, today)["vinst_nasta_ar"] == PyFloat(f.vinstNastaAr)
    ensures FormRecord(f, today)["oms_tillv_nasta_ar"] == PyFloat(f.omsTillvNastaAr)
    ensures FormRecord(f, today)["oms_tillv_i_ar"] == PyFloat(f.omsTillvIAr)
  {
  }

  /** What a stored form reads back as: `calculate_targets` sees exactly the numbers
      that were entered. */
  lemma FormRecordReadsBack(f: Form, today: string)
    ensures ParseInputs(FormRecord(f, today))
         == Some(Inputs(f.peValues, f.psValues, f.vinstNastaAr, f.omsTillvNastaAr, f.omsTillvIAr, f.kurs, f.ps0))
  {
    var rec := FormRecord(f, today);
    FormRecordMultiples(f, today);
    FormRecordScalars(f, today);
    FloatsOfValues(rec, PeKeys, f.peValues);
    FloatsOfValues(rec, PsKeys, f.psValues);
  }

  /** `rec` with the four numbers of `t` written into its four result fields. */
  function WithTargets(rec: Record, t: Targets): Record
  {
    rec[TargetPeKey := PyFloat(t.targetPe)][TargetPsKey := PyFloat(t.targetPs)]
       [UvPeKey := PyFloat(t.undervarderadPe)][UvPsKey := PyFloat(t.undervarderadPs)]
  }

  /** Lines 96-99: a record with both targets and both percentages written in. */
  function AnnotateRecord(rec: Record): Record
  {
    WithTargets(rec, CalculateTargets(rec))
  }

  /** The ranking score of line 100: the larger of the two percentages. */
  function Score(rec: Record): real
  {
    var t := CalculateTargets(rec);
    Max(t.undervarderadPe, t.undervarderadPs)
  }

  /** `f` applied to every record of `data`. */
  function MapValues<V>(data: map<string, Record>, f: Record -> V): map<string, V>
  {
    map n | n in data :: f(data[n])
  }

  /** Every record of `data` annotated. */
  function AnnotateAll(data: map<string, Record>): map<string, Record>
  {
    MapValues(data, AnnotateRecord)
  }

  /** `berakningar`: every company's score. */
  function Scores(data: map<string, Record>): map<string, real>
  {
    MapValues(data, Score)
  }

  /** Writing a field `calculate_targets` does not read leaves its inputs alone. */
  lemma UpdateUnreadKey(rec: Record, k: string, v: PyValue)
    requires k !in ReadKeys
    ensures ParseInputs(rec[k := v]) == ParseInputs(rec)
  {
    var upd := rec[k := v];
    forall key | key in ReadKeys
      ensures FieldAsFloat(upd, key, 0.0) == FieldAsFloat(rec, key, 0.0)
      ensures FieldAsFloat(upd, key, 1.0) == FieldAsFloat(rec, key, 1.0)
    {
      assert key != k;
    }
    assert forall i :: 0 <= i < |PeKeys| ==> PeKeys[i] in ReadKeys;
    assert forall i :: 0 <= i < |PsKeys| ==> PsKeys[i] in ReadKeys;
    ParseInputsReadsOnly(upd, rec);
  }

  /** None of the four fields the annotation writes is read by `calculate_targets`. */
  lemma AnnotationKeysUnread()
    ensures TargetPeKey !in ReadKeys && TargetPsKey !in ReadKeys
    ensures UvPeKey !in ReadKeys && UvPsKey !in ReadKeys
  {
  }

  /** The annotation writes only fields `calculate_targets` does not read. */
  lemma WithTargetsKeepsInputs(rec: Record, t: Targets)
    ensures ParseInputs(WithTargets(rec, t)) == ParseInputs(rec)
  {
    AnnotationKeysUnread();
    var r1 := rec[TargetPeKey := PyFloat(t.targetPe)];
    var r2 := r1[TargetPsKey := PyFloat(t.targetPs)];
    var r3 := r2[UvPeKey := PyFloat(t.undervarderadPe)];
    UpdateUnreadKey(rec, TargetPeKey, PyFloat(t.targetPe));
    UpdateUnreadKey(r1, TargetPsKey, PyFloat(t.targetPs));
    UpdateUnreadKey(r2, UvPeKey, PyFloat(t.undervarderadPe));
    UpdateUnreadKey(r3, UvPsKey, PyFloat(t.undervarderadPs));
  }

  lemma AnnotateKeepsTargets(rec: Record)
    ensures CalculateTargets(AnnotateRecord(rec)) == CalculateTargets(rec)
  {
    WithTargetsKeepsInputs(rec, CalculateTargets(rec));
  }

  /** Writing the same numbers twice is writing them once. */
  lemma WithTargetsTwice(rec: Record, t: Targets)
    ensures WithTargets(WithTargets(rec, t), t) == WithTargets(rec, t)
  {
  }

  /** Annotating again (the script runs top to bottom on every interaction) leaves
      the record as it was. */
  lemma AnnotateRecordIdempotent(rec: Record)
    ensures AnnotateRecord(AnnotateRecord(rec)) == AnnotateRecord(rec)
  {
    var t := CalculateTargets(rec);
    AnnotateKeepsTargets(rec);
    WithTargetsTwice(rec, t);
  }

  /** Annotating leaves the score as it was. */
  lemma AnnotateKeepsScore(rec: Record)
    ensures Score(AnnotateRecord(rec)) == Score(rec)
  {
    AnnotateKeepsTargets(rec);
  }

  /** `after` is `before` with `f` applied to exactly the records named in `done`. */
  ghost predicate UpdatedOn(before: map<string, Record>, after: map<string, Record>, f: Record -> Record,
                            done: seq<string>)
  {
    && after.Keys == before.Keys
    && forall n :: n in after ==> after[n] == if n in done then f(before[n]) else before[n]
  }

  /** `scores` holds `g` of exactly the records named in `done`. */
  ghost predicate ScoredOn(before: map<string, Record>, scores: map<string, real>, g: Record -> real,
                           done: seq<string>)
  {
    && scores.Keys <= before.Keys
    && (forall n :: n in before ==> (n in scores <==> n in done))
    && forall n :: n in scores ==> scores[n] == g(before[n])
  }

  lemma UpdateStep(before: map<string, Record>, after: map<string, Record>, f: Record -> Record,
                   done: seq<string>, namn: string)
    requires UpdatedOn(before, after, f, done)
    requires namn in before && namn !in done
    ensures after[namn] == before[namn]
    ensures UpdatedOn(before, after[namn := f(before[namn])], f, done + [namn])
  {
    var after' := after[namn := f(before[namn])];
    forall n | n in after'
      ensures after'[n] == if n in done + [namn] then f(before[n]) else before[n]
    {
      assert n in done + [namn] <==> n in done || n == namn;
    }
  }

  lemma ScoreStep(before: map<string, Record>, scores: map<string, real>, g: Record -> real,
                  done: seq<string>, namn: string)
    requires ScoredOn(before, scores, g, done)
    requires namn in before
    ensures ScoredOn(before, scores[namn := g(before[namn])], g, done + [namn])
  {
    assert forall n :: n in done + [namn] <==> n in done || n == namn;
  }

  lemma UpdatedOnAll(before: map<string, Record>, after: map<string, Record>, f: Record -> Record,
                     done: seq<string>)
    requires UpdatedOn(before, after, f, done)
    requires forall n :: n in before ==> n in done
    ensures after == MapValues(before, f)
  {
  }

  lemma ScoredOnAll(before: map<string, Record>, scores: map<string, real>, g: Record -> real, done: seq<string>)
    requires ScoredOn(before, scores, g, done)
    requires forall n :: n in before ==> n in done
    ensures scores == MapValues(before, g)
  {
  }


  /** `berakningar.get(name, 0)`, the sort key of line 102. */
  function ScoreOf(berakningar: map<string, real>, name: string): real
  {
    Get(berakningar, name, 0.0)
  }

  function KeyOf(berakningar: map<string, real>): string -> real
  {
    name => ScoreOf(berakningar, name)
  }

  /** Line 102: the names in dict order, sorted by score from the largest down;
      names with equal scores stay in dict order. */
  function Rank(order: seq<string>, berakningar: map<string, real>): (r: seq<string>)
    ensures multiset(r) == multiset(order)
    ensures forall i, j :: 0 <= i < j < |r| ==> ScoreOf(berakningar, r[i]) >= ScoreOf(berakningar, r[j])
    ensures forall v :: WithKey(r, KeyOf(berakningar), v) == WithKey(order, KeyOf(berakningar), v)
  {
    SortDesc(order, KeyOf(berakningar))
  }

  /** `data[name].get(key, 0) > 30` for a percentage that is a number. */
  predicate Above30(rec: Record, key: string)
  {
    match Get(rec, key, PyFloat(0.0))
    case PyFloat(x) => x > 30.0
    case _ => false
  }

  /** The condition of line 108, strictly above 30 on either method. */
  predicate Undervalued(data: map<string, Record>, name: string)
  {
    name in data && (Above30(data[name], UvPeKey) || Above30(data[name], UvPsKey))
  }

  /** Both percentages of the record are numbers or absent (comparing anything else
      with 30 raises TypeError, which `main` does not catch). */
  predicate NumericPercentages(rec: Record)
  {
    Get(rec, UvPeKey, PyFloat(0.0)).PyFloat? && Get(rec, UvPsKey, PyFloat(0.0)).PyFloat?
  }

  /** Lines 107-109: everything ranked when "show all" is on, otherwise the ranked
      names that are undervalued, in ranked order. */
  function Select(data: map<string, Record>, ranked: seq<string>, visaAlla: bool): (r: seq<string>)
    requires forall n :: n in data ==> NumericPercentages(data[n])
    requires forall n :: n in ranked ==> n in data
    ensures visaAlla ==> r == ranked
    ensures !visaAlla ==> IsSubsequence(r, ranked)
    ensures !visaAlla ==> forall n :: n in r ==> Undervalued(data, n)
    ensures !visaAlla ==> forall n :: n in ranked && Undervalued(data, n) ==> n in r
  {
    if visaAlla then ranked
    else
      var r := Filter(ranked, name => Undervalued(data, name));
      assert forall n :: n in ranked && Undervalued(data, n) ==> multiset(r)[n] == multiset(ranked)[n];
      r
  }

  /** The threshold is strict: a company at exactly 30 % on both methods is left
      out, one at 30.01 % on one of them is kept. */
  lemma ThresholdIsStrict(rec: Record)
    ensures !Undervalued(map["A" := rec[UvPeKey := PyFloat(30.0)][UvPsKey := PyFloat(30.0)]], "A")
    ensures Undervalued(map["A" := rec[UvPeKey := PyFloat(30.01)][UvPsKey := PyFloat(30.0)]], "A")
  {
  }

  lemma MulSub(q: int, q': int, n: int)
    ensures q * n - q' * n == (q - q') * n
  {
  }

  lemma MulAtLeast(d: int, n: int)
    requires d >= 1 && n > 0
    ensures d * n >= n
  {
  }

  /** Division with remainder has one answer: any `q * n + r` with `0 <= r < n`
      leaves remainder `r`. */
  lemma ModUnique(a: int, n: int, q: int, r: int)
    requires n > 0 && 0 <= r < n && a == q * n + r
    ensures a % n == r
  {
    var q', r' := a / n, a % n;
    assert a == q' * n + r';
    MulSub(q, q', n);
    var d := q - q';
    assert d * n == r' - r;
    if d >= 1 {
      MulAtLeast(d, n);
    } else if d <= -1 {
      MulSub(q', q, n);
      MulAtLeast(-d, n);
    }
  }

  /** Line 115: Python's `index % n`, which for a positive `n` is never negative,
      so every index, also one driven below zero, picks a valid position: the one
      `index` reaches after a whole number of rounds of `n`. */
  function WrapIndex(index: int, n: int): (i: int)
    requires n > 0
    ensures 0 <= i < n
    ensures index == n * (index / n) + i
  {
    index % n
  }

  /** "Next" moves one position on, from the last back to the first. */
  lemma WrapNext(index: int, n: int)
    requires n > 0
    ensures WrapIndex(index + 1, n) == if WrapIndex(index, n) == n - 1 then 0 else WrapIndex(index, n) + 1
  {
    var i := WrapIndex(index, n);
    var q := index / n;
    if i == n - 1 {
      ModUnique(index + 1, n, q + 1, 0);
    } else {
      ModUnique(index + 1, n, q, i + 1);
    }
  }

  /** "Previous" moves one position back, from the first round to the last. */
  lemma WrapPrevious(index: int, n: int)
    requires n > 0
    ensures WrapIndex(index - 1, n) == if WrapIndex(index, n) == 0 then n - 1 else WrapIndex(index, n) - 1
  {
    var i := WrapIndex(index, n);
    var q := index / n;
    if i == 0 {
      ModUnique(index - 1, n, q - 1, n - 1);
    } else {
      ModUnique(index - 1, n, q, i - 1);
    }
  }

  /** Lines 111-116: the company shown, the one at the wrapped index, or `None`
      when the selection is empty. */
  function Current(valda: seq<string>, index: int): (valt: Option<string>)
    ensures valt.None? <==> valda == []
    ensures valt.Some? ==> valt.value in valda
    ensures valt.Some? ==> valt.value == valda[WrapIndex(index, |valda|)]
  {
    if valda == [] then None else Some(valda[WrapIndex(index, |valda|)])
  }

  /** After "next" the company shown is the one after the previous one in the
      selection, the first again after the last. */
  lemma CurrentNext(valda: seq<string>, index: int)
    requires valda != []
    ensures var i := WrapIndex(index, |valda|);
      Current(valda, index + 1) == Some(valda[if i == |valda| - 1 then 0 else i + 1])
  {
    WrapNext(index, |valda|);
  }

  /** After "previous" the company shown is the one before, the last after the
      first. */
  lemma CurrentPrevious(valda: seq<string>, index: int)
    requires valda != []
    ensures var i := WrapIndex(index, |valda|);
      Current(valda, index - 1) == Some(valda[if i == 0 then |valda| - 1 else i - 1])
  {
    WrapPrevious(index, |valda|);
  }

  /** Annotated records hold numbers in both percentage fields. */
  lemma AnnotatedNumeric(data: map<string, Record>)
    ensures forall n :: n in AnnotateAll(data) ==> NumericPercentages(AnnotateAll(data)[n])
  {
  }

  /** On annotated records the filter of line 108 asks whether either percentage
      `calculate_targets` gives is strictly above 30. */
  lemma UndervaluedAfterAnnotation(data: map<string, Record>, n: string)
    ensures Undervalued(AnnotateAll(data), n) <==>
      n in data && (CalculateTargets(data[n]).undervarderadPe > 30.0 || CalculateTargets(data[n]).undervarderadPs > 30.0)
  {
    if n in data {
      var t := CalculateTargets(data[n]);
      assert Get(AnnotateAll(data)[n], UvPeKey, PyFloat(0.0)) == PyFloat(t.undervarderadPe);
      assert Get(AnnotateAll(data)[n], UvPsKey, PyFloat(0.0)) == PyFloat(t.undervarderadPs);
    }
  }

  /** A company's entry in `berakningar` is its score. */
  lemma ScoreOfScores(data: map<string, Record>)
    ensures forall n :: n in data ==> ScoreOf(Scores(data), n) == Score(data[n])
  {
  }

  /** Lines 94-109 for the dict `data` whose keys are in the order `order`:
      `valda_bolag`, every company when "show all" is on and otherwise exactly the
      companies above 30 % on either method, from the highest score down. */
  function Selection(data: map<string, Record>, order: seq<string>, visaAlla: bool): (valda: seq<string>)
    requires forall n :: n in data <==> n in order
    ensures forall n :: n in valda ==> n in data
    ensures forall n :: n in data ==> (n in valda <==> visaAlla || Undervalued(AnnotateAll(data), n))
    ensures forall i, j :: 0 <= i < j < |valda| ==> Score(data[valda[i]]) >= Score(data[valda[j]])
    ensures visaAlla ==> valda == Rank(order, Scores(data))
    ensures !visaAlla ==> IsSubsequence(valda, Rank(order, Scores(data)))
  {
    var annotated := AnnotateAll(data);
    var scores := Scores(data);
    var sorterade := Rank(order, scores);
    AnnotatedNumeric(data);
    assert forall n :: n in sorterade <==> n in order by {
      assert forall n :: n in sorterade <==> n in multiset(sorterade);
      assert forall n :: n in order <==> n in multiset(order);
    }
    var valda := Select(annotated, sorterade, visaAlla);
    SelectionRanked(data, sorterade, valda, visaAlla);
    valda
  }

  lemma SelectionRanked(data: map<string, Record>, sorterade: seq<string>, valda: seq<string>, visaAlla: bool)
    requires forall n :: n in sorterade ==> n in data
    requires forall i, j :: 0 <= i < j < |sorterade| ==> ScoreOf(Scores(data), sorterade[i]) >= ScoreOf(Scores(data), sorterade[j])
    requires visaAlla ==> valda == sorterade
    requires !visaAlla ==> IsSubsequence(valda, sorterade)
    ensures forall n :: n in valda ==> n in data
    ensures forall i, j :: 0 <= i < j < |valda| ==> Score(data[valda[i]]) >= Score(data[valda[j]])
  {
    var key := KeyOf(Scores(data));
    assert NonIncreasing(sorterade, key);
    if !visaAlla {
      SubsequenceNonIncreasing(valda, sorterade, key);
      SubsequenceMembers(valda, sorterade);
    }
    ScoreOfScores(data);
    forall i, j | 0 <= i < j < |valda|
      ensures Score(data[valda[i]]) >= Score(data[valda[j]])
    {
      assert key(valda[i]) >= key(valda[j]);
    }
  }

  /** The company one pass of lines 86-116 shows for the dict `data` whose keys are
      in the order `order`: the one at the wrapped index of the selection; none for
      an empty dict or an empty selection; with the filter on, one exists exactly
      when some company is above 30 %. */
  function Shown(data: map<string, Record>, order: seq<string>, visaAlla: bool, index: int): (valt: Option<string>)
    requires forall n :: n in data <==> n in order
    ensures data == map[] ==> valt == None
    ensures visaAlla ==> (valt.None? <==> data == map[])
    ensures valt.Some? ==> valt.value in data
    ensures valt.Some? && !visaAlla ==> Undervalued(AnnotateAll(data), valt.value)
    ensures !visaAlla ==> (valt.None? <==> forall n :: n in data ==> !Undervalued(AnnotateAll(data), n))
  {
    if data == map[] then None
    else
      var valda := Selection(data, order, visaAlla);
      assert visaAlla ==> valda != [] by {
        if visaAlla {
          var n :| n in data;
          assert n in valda;
        }
      }
      Current(valda, index)
  }

  /** With a non-empty selection, the company shown is the selection's entry at
      the wrapped index. */
  lemma ShownIsCurrent(data: map<string, Record>, order: seq<string>, visaAlla: bool, index: int)
    requires forall n :: n in data <==> n in order
    requires Selection(data, order, visaAlla) != []
    ensures Shown(data, order, visaAlla, index) == Current(Selection(data, order, visaAlla), index)
  {
    assert data != map[] by { assert Selection(data, order, visaAlla)[0] in data; }
  }

  /** In a selection ranked by score, its first entry scores at least as much as
      every other. */
  lemma FirstScoresHighest(data: map<string, Record>, valda: seq<string>)
    requires valda != []
    requires forall n :: n in valda ==> n in data
    requires forall i, j :: 0 <= i < j < |valda| ==> Score(data[valda[i]]) >= Score(data[valda[j]])
    ensures forall n :: n in valda ==> Score(data[valda[0]]) >= Score(data[n])
  {
    forall n | n in valda
      ensures Score(data[valda[0]]) >= Score(data[n])
    {
      var j :| 0 <= j < |valda| && valda[j] == n;
      if j > 0 {
        assert Score(data[valda[0]]) >= Score(data[valda[j]]);
      }
    }
  }

  /** Before any "next" or "previous" the company shown has the highest score of
      all the companies the filter lets through. */
  lemma ShownTopAtStart(data: map<string, Record>, order: seq<string>, visaAlla: bool)
    requires forall n :: n in data <==> n in order
    ensures var valt := Shown(data, order, visaAlla, 0);
      valt.Some? ==> forall n :: n in data && (visaAlla || Undervalued(AnnotateAll(data), n)) ==>
        Score(data[valt.value]) >= Score(data[n])
  {
    var valda := Selection(data, order, visaAlla);
    if valda != [] {
      ShownIsCurrent(data, order, visaAlla, 0);
      ModUnique(0, |valda|, 0, 0);
      FirstScoresHighest(data, valda);
    }
  }

  /** `order` lists every key of `data` once: the key order of a Python dict. */
  ghost predicate KeyOrder(data: map<string, Record>, order: seq<string>)
  {
    && (forall i, j :: 0 <= i < j < |order| ==> order[i] != order[j])
    && (forall n :: n in data <==> n in order)
  }

  /** Assigning to a key keeps a known key in its place and puts a new one last. */
  lemma KeyOrderAssign(data: map<string, Record>, order: seq<string>, name: string, rec: Record)
    requires KeyOrder(data, order)
    ensures KeyOrder(data[name := rec], if name in data then order else order + [name])
  {
  }

  /** The session: `st.session_state.data`, a dict keyed by exact company name whose
      key order is insertion order, the browsing index, and (as a ghost) the last
      contents written to the data file. */
  class Session {
    var data: map<string, Record>
    var order: seq<string>
    var index: int
    ghost var saved: map<string, Record>

    ghost predicate Valid()
      reads this
    {
      KeyOrder(data, order)
    }

    /** A session on the dict loaded from the data file, browsing from position 0. */
    constructor (loaded: map<string, Record>, loadedOrder: seq<string>)
      requires KeyOrder(loaded, loadedOrder)
      ensures Valid()
      ensures data == loaded && order == loadedOrder && index == 0 && saved == loaded
    {
      data := loaded;
      order := loadedOrder;
      index := 0;
      saved := loaded;
    }

    /** Lines 65-82: on submit with a non-empty name, `data[bolagsnamn]` is replaced
        wholesale by the form's record (a new name goes last in dict order, a known
        one keeps its place), every other company is left alone, and the dict is
        saved. An empty name changes nothing. */
    method Upsert(bolagsnamn: string, form: Form, today: string)
      requires Valid()
      modifies this
      ensures Valid()
      ensures index == old(index)
      ensures bolagsnamn == "" ==> data == old(data) && order == old(order) && saved == old(saved)
      ensures bolagsnamn != "" ==>
        && data == old(data)[bolagsnamn := FormRecord(form, today)]
        && order == (if bolagsnamn in old(data) then old(order) else old(order) + [bolagsnamn])
        && saved == data
    {
      if bolagsnamn != "" {
        if bolagsnamn !in data {
          order := order + [bolagsnamn];
        }
        KeyOrderAssign(data, old(order), bolagsnamn, FormRecord(form, today));
        StoreForm(bolagsnamn, form, today);
        saved := data;
      }
    }

    /** Lines 66-80: the record of `bolagsnamn` becomes the form's record. */
    method StoreForm(bolagsnamn: string, form: Form, today: string)
      modifies this`data
      ensures data == old(data)[bolagsnamn := FormRecord(form, today)]
    {
      data := data[bolagsnamn := BaseRecord(form, today)];
      AddMultiples(bolagsnamn, form);
      WithAllMultiples(form, today);
    }

    /** Lines 78-80: writes pe1..pe4 and ps1..ps4 of the form into the stored
        record of `bolagsnamn`, leaving its other fields and every other company
        alone. */
    method AddMultiples(bolagsnamn: string, form: Form)
      requires bolagsnamn in data
      modifies this`data
      ensures data == old(data)[bolagsnamn := WithMultiples(old(data)[bolagsnamn], form, 4)]
    {
      var i := 0;
      while i < 4
        invariant 0 <= i <= 4
        invariant data == old(data)[bolagsnamn := WithMultiples(old(data)[bolagsnamn], form, i)]
      {
        data := data[bolagsnamn := data[bolagsnamn][PeKeys[i] := PyFloat(form.peValues[i])]];
        data := data[bolagsnamn := data[bolagsnamn][PsKeys[i] := PyFloat(form.psValues[i])]];
        i := i + 1;
      }
    }

    /** Lines 93-100: writes both targets and both percentages into every record and
        returns each company's score, the larger percentage. */
    method Annotate() returns (berakningar: map<string, real>)
      requires Valid()
      modifies this`data
      ensures Valid()
      ensures data == AnnotateAll(old(data))
      ensures berakningar == Scores(old(data))
    {
      berakningar := map[];
      var i := 0;
      while i < |order|
        invariant 0 <= i <= |order|
        invariant UpdatedOn(old(data), data, AnnotateRecord, order[..i])
        invariant ScoredOn(old(data), berakningar, Score, order[..i])
      {
        var namn := order[i];
        assert order[..i + 1] == order[..i] + [namn];
        UpdateStep(old(data), data, AnnotateRecord, order[..i], namn);
        ScoreStep(old(data), berakningar, Score, order[..i], namn);
        var score := AnnotateOne(namn);
        berakningar := berakningar[namn := score];
        i := i + 1;
      }
      assert order[..i] == order;
      UpdatedOnAll(old(data), data, AnnotateRecord, order);
      ScoredOnAll(old(data), berakningar, Score, order);
    }

    /** Lines 95-100 for one company: its targets are computed, written into its
        record, and the larger percentage is returned as its score. */
    method AnnotateOne(namn: string) returns (score: real)
      requires namn in data
      modifies this`data
      ensures data == old(data)[namn := AnnotateRecord(old(data)[namn])]
      ensures score == Score(old(data)[namn])
    {
      var tp := CalculateTargets(data[namn]);
      data := data[namn := WithTargets(data[namn], tp)];
      score := Max(tp.undervarderadPe, tp.undervarderadPs);
    }

    /** Lines 86-116 as one pass of the script: nothing is shown for an empty dict;
        otherwise every record is annotated, the names are ranked and filtered, and
        the company at the wrapped index is shown, if the selection is not empty. */
    method Browse(visaAlla: bool) returns (valt: Option<string>)
      requires Valid()
      modifies this`data
      ensures Valid()
      ensures data == if old(data) == map[] then old(data) else AnnotateAll(old(data))
      ensures valt == Shown(old(data), order, visaAlla, index)
    {
      if data == map[] {
        return None;
      }
      ghost var before := data;
      var berakningar := Annotate();
      var sorterade := Rank(order, berakningar);
      AnnotatedNumeric(before);
      assert forall n :: n in sorterade ==> n in multiset(order);
      var valda := Select(data, sorterade, visaAlla);
      valt := Current(valda, index);
    }

    /** Lines 127-128. */
    method Previous()
      modifies this`index
      ensures index == old(index) - 1
    {
      index := index - 1;
    }

    /** Lines 130-131. */
    method Next()
      modifies this`index
      ensures index == old(index) + 1
    {
      index := index + 1;
    }
  }
}
