# Aktieanalys: a verified model of the valuation and record-handling core

The repository is a small Streamlit app for stock analysis. It stores one record per company: price, earnings, revenue growth, and current and historical P/E and P/S multiples. From these it computes target prices and an undervaluation percentage, ranks the companies, and lets the user browse them one at a time.

This Dafny project models two parts of it.

**The valuation engine.** There are three variants, modelled separately as they are written:

- `Utils.py` (module `GuardedValuation`): formulas guarded against `None`.
- `utils.py` (module `ParsedValuation`): the same formulas applied to `float()` of each argument.
  - A conversion that raises gives `None`.
  - Targets are rounded to two decimals.
  - The undervaluation is the largest percentage over the methods that contribute.
- `calculate_targets` in `app.py` (module `AppValuation`):
  - It averages all four historical multiples, with a missing one counting as 0.
  - It divides the P/S target by the current P/S and uses only next year's growth.
  - It measures undervaluation against the price.
  - It turns any exception into four zeros.

**The record handling.**

- Module `AppSession`, the logic of `main` in `app.py`:
  - a `Session` class holding the dict of companies, its key order and the browsing index;
  - upsert by exact name;
  - annotation of every record and ranking by the larger percentage;
  - the hard-coded `> 30` filter;
  - the wrap-around index.
- Module `DataHandler`, from `data_handler.py`:
  - completing a record with `REQUIRED_FIELDS`, in place;
  - deleting a company by index.

**Python semantics.** The supporting modules are:

- `Wrappers`: `Option`, which stands for Python's `None` or a raised exception.
- `PyBuiltins`: the built-ins the code leans on.
  - Values in a record are `PyNone`, `PyFloat` or `PyStr`.
  - `float()` is a decimal-numeral parser.
  - `dict.get`, `sum`, the mean and `max` are modelled directly.
  - `round(x, 2)` rounds half to even on exact reals.
- `Sequences`: `sorted(..., reverse=True)` as a stable descending sort, and list-comprehension filtering.

Numbers are exact reals. Every place where Python would raise `ZeroDivisionError`, `TypeError` or `ValueError` is an explicit branch, except those listed under Left out.

Where a reader might expect otherwise, the model follows the code:

- Company names are matched exactly, as dict keys (`app.py:66`), not case-insensitively.
- No `created_at` field is kept. An upsert replaces the whole record (`app.py:66-77`).
- `calculate_targets` averages zero and missing multiples as zeros (`app.py:21-23`). It does not exclude them.
- `calculate_targets` measures undervaluation against the price (`app.py:34-35`). `Utils.py` and `utils.py` measure it against the target.
- The filter is a hard-coded, strict `> 30` (`app.py:108`). A company at exactly 30 % is excluded.
- `Utils.py` returns `None` when a growth rate is missing; it does not default to zero growth.
- `utils.py` and `app.py` round to two decimals.
- The keys of `REQUIRED_FIELDS` differ from the keys `app.py` writes:
  - `REQUIRED_FIELDS` has `nuvarande_kurs`, `vinst_nastaar`, `pe_nu`, …
  - `app.py` writes `kurs`, `vinst_nasta_ar`, `pe0`, …
  - Completing a record therefore adds up to twelve fields that `calculate_targets` never reads. For a record written by `app.py`, which already has `senast_andrad` and the eight multiples, it is eleven.
  - For other records, completion may also add `pe1`..`pe4` and `ps1`..`ps4` at 0.0. `calculate_targets` reads these, but a missing key already reads as 0, so completion never changes the result (`CompletionKeepsTargets`).
  - Both sets of keys are modelled as written.

## Model

| member | source | states |
|---|---|---|
| GuardedValuation.CalculateTargetkursPe | Utils.py:23-30 | `None` exactly when earnings, pe1 or pe2 is `None`; otherwise earnings times the mean of pe1 and pe2, unrounded |
| GuardedValuation.CalculateTargetkursPs | Utils.py:32-40 | `None` exactly when one of the five inputs is `None`; otherwise mean P/S times (1 + mean growth / 100) times price |
| GuardedValuation.CalculateUndervardering | Utils.py:42-48 | `None` exactly when the price or target is `None` or the target is 0; otherwise u with u·target = (target − price)·100 |
| GuardedValuation.PeTarget | Utils.py:27-28 | the P/E target is earnings times the mean of the two multiples |
| GuardedValuation.PsTarget | Utils.py:36-38 | the P/S target is the mean multiple times one plus the mean growth percentage, times the price |
| GuardedValuation.GrowthAveragedNotCompounded | Utils.py:36-38 | two growth rates give the same target as their mean taken twice: they are averaged, not compounded |
| GuardedValuation.UndervarderingZeroAtTarget | Utils.py:46 | a price equal to a non-zero target is exactly 0 % undervalued |
| GuardedValuation.UndervarderingSign | Utils.py:46 | not clamped: for a positive target the result is positive iff price < target, and negative iff price > target |
| GuardedValuation.UndervarderingRecoversPrice | Utils.py:46 | the percentage and the target give back the price, target·(1 − u/100) = price |
| GuardedValuation.UndervarderingAtMostHundred | Utils.py:46 | for a non-negative price and a positive target, u ≤ 100, with equality iff the price is 0 |
| GuardedValuation.PeExample | Utils.py:23-30 | earnings 10 with P/E 12 and 8 give a target of 100, and a price of 100 is then 0 % undervalued |
| ParsedValuation.RoundOption | utils.py:11 | rounding keeps `None` as `None` and moves a number by at most 0.005 |
| ParsedValuation.BeraknaTargetkursPe | utils.py:3-13 | `None` exactly when a `float()` raises; otherwise the rounded Utils.py P/E target of the converted arguments |
| ParsedValuation.BeraknaTargetkursPs | utils.py:16-27 | `None` exactly when a `float()` of ps1, ps2, the growth rates or the price raises; otherwise the rounded Utils.py P/S target |
| ParsedValuation.Contribution | utils.py:37-49 | a method contributes iff its target is a number > 0 and the price converts; its percentage p satisfies p·target = (target − price)·100 |
| ParsedValuation.BeraknaUndervardering | utils.py:30-54 | `None` iff no method contributes; otherwise the rounded maximum of the contributing percentages |
| ParsedValuation.UndervarderingIsMax | utils.py:51-52 | the result is at least every contributing method's own rounded percentage |
| ParsedValuation.ContributionZeroAtTarget | utils.py:39 | a target equal to a positive price contributes exactly 0 |
| ParsedValuation.PeWithinRounding | utils.py:9-11 | the P/E target is within 0.005 of earnings times the mean P/E |
| ParsedValuation.PsIgnoresCurrentPs | utils.py:16-25 | the current P/S argument has no effect on the P/S target |
| ParsedValuation.UnparseableGivesNone | utils.py:8-13 | an earnings string that is not a numeral gives `None` instead of raising |
| AppValuation.FieldAsFloat | app.py:21-32 | defined by its body (`float(bolag.get(key, default))`); pinned down by `FloatsOf`, `ParseInputs`, `MissingMultipleCountsAsZero` and `Ps0DefaultsToOne` |
| AppValuation.FloatsOf | app.py:21-22 | the list comprehension succeeds iff each `float(bolag.get(k, 0))` does, and holds those values in key order |
| AppValuation.ParseInputs | app.py:21-32 | fails exactly when the `float()` of one of the thirteen fields read fails; otherwise holds four P/E and four P/S values and every field's converted value, with the defaults 0 and, for `ps0`, 1 |
| AppValuation.ConversionFailureGivesZeros | app.py:19-39 | a stored value that `float()` rejects in any field `calculate_targets` reads gives four zeros |
| AppValuation.TargetPe | app.py:23-31 | defined by its body (earnings times the mean of the four P/E values); pinned down by `AveragedPe` and `Compute` |
| AppValuation.TargetPs | app.py:24-32 | defined by its body (price times one plus next year's growth times the mean of the four P/S values, over `ps0`); pinned down by `AveragedPs` and `Compute` |
| AppValuation.SumOfFour | app.py:23-24 | `sum` of four values is their plain sum |
| AppValuation.RelativeToPrice | app.py:34-35 | the percentage u satisfies u·price = (target − price)·100 |
| AppValuation.CalculateTargets | app.py:19-39 | four zeros when a conversion fails or the price or current P/S is 0; otherwise the rounded four-value targets and their rounded percentages relative to the price |
| AppValuation.Compute | app.py:23-37 | the targets are the four-value averages, rounded, and the percentages are the rounded distances of the unrounded targets from the price |
| AppValuation.AveragedPe | app.py:23-31 | earnings times `sum(pe_values)/len(pe_values)` is earnings times the plain mean of the four values |
| AppValuation.AveragedPs | app.py:24-32 | the P/S target with `sum/len` is the plain four-value mean formula |
| AppValuation.ParseInputsOf | app.py:21-32 | the inputs are exactly the `float()` conversions of the thirteen fields, with the defaults 0 and, for `ps0`, 1 |
| AppValuation.ParseInputsReadsOnly | app.py:21-32 | records whose converted fields agree give the same inputs |
| AppValuation.CalculateTargetsReadsOnly | app.py:19-39 | `calculate_targets` depends only on the fields it converts |
| AppValuation.MissingMultipleCountsAsZero | app.py:21-23 | a missing pe or ps key gives the same result as a stored 0: zeros are averaged |
| AppValuation.Ps0DefaultsToOne | app.py:32 | a record without `ps0` is valued as if it stored 1 |
| AppValuation.CurrentYearGrowthUnused | app.py:28 | this year's growth is converted but its value never changes the result |
| AppValuation.ParseCurrentYearGrowth | app.py:28 | changing this year's growth changes only that input |
| AppValuation.ComputeIgnoresCurrentYearGrowth | app.py:31-37 | the computation does not use this year's growth |
| AppValuation.UndervarderadRelativeToPrice | app.py:34-35 | a target equal to the price gives 0 %, and a positive percentage means the target is above a positive price |
| AppValuation.PositiveMeansAbovePrice | app.py:34-35 | for a positive price, a positive rounded percentage implies target > price |
| AppValuation.EmptyRecordGivesZeros | app.py:29-39 | an empty record has price 0, so the division raises and the result is four zeros |
| AppValuation.ExampleInputs | app.py:21-32 | a record with earnings 10, P/E 12 and 8 and price 100 reads as P/E values [12, 8, 0, 0], P/S zeros and `ps0` 1 |
| AppValuation.ZerosAreAveraged | app.py:21-39 | that record gets a P/E target of 50 (not 100) at −50 %, and a P/S target of 0 at −100 % |
| AppSession.BaseRecord | app.py:66-77 | defined by its body (the ten-field dict literal); pinned down by `FormRecordScalars` and `WithAllMultiples` |
| AppSession.FormRecord | app.py:66-80 | defined by its body (the dict literal plus the loop's eight multiples); pinned down by `FormRecordMultiples`, `FormRecordScalars`, `FormRecordReadsBack` and `WithAllMultiples` |
| AppSession.WithMultiples | app.py:78-80 | defined by its body (the first n rounds of the loop writing `pe{i+1}` and `ps{i+1}`); pinned down by `WithAllMultiples` and `FormRecordMultiples` |
| AppSession.WithAllMultiples | app.py:78-80 | four rounds of the loop turn the ten-field record into the full stored record |
| AppSession.FormRecordMultiples | app.py:78-80 | the stored record holds the form's multiples under pe1..pe4 and ps1..ps4 |
| AppSession.FormRecordScalars | app.py:66-77 | the stored record holds the form's price, current P/S, earnings and growth figures |
| AppSession.FormRecordReadsBack | app.py:66-80 | `calculate_targets` reads a stored form back as exactly the numbers entered |
| AppSession.UpdateUnreadKey | app.py:96-99 | writing a field outside the thirteen that `calculate_targets` reads leaves its inputs unchanged |
| AppSession.WithTargetsKeepsInputs | app.py:96-99 | the four annotation fields do not change the inputs of `calculate_targets` |
| AppSession.AnnotateKeepsTargets | app.py:95-99 | an annotated record gets the same four numbers as before annotation |
| AppSession.WithTargets | app.py:96-99 | defined by its body (the four writes of the targets and percentages); pinned down by `WithTargetsKeepsInputs`, `AnnotateKeepsTargets` and `AnnotateRecordIdempotent` |
| AppSession.AnnotateRecord | app.py:95-99 | defined by its body (the record with the four results written in); pinned down by `AnnotateKeepsTargets`, `AnnotateRecordIdempotent`, `AnnotateKeepsScore` and `UndervaluedAfterAnnotation` |
| AppSession.Score | app.py:100 | defined by its body (the larger of the two percentages); pinned down by `AnnotateKeepsScore`, `Selection` and `ShownTopAtStart` |
| AppSession.AnnotateAll | app.py:94-99 | defined by its body (every record annotated); pinned down by `UpdatedOnAll`, `Session.Annotate`, `AnnotatedNumeric` and `UndervaluedAfterAnnotation` |
| AppSession.Scores | app.py:94-100 | defined by its body (every company's score); pinned down by `ScoredOnAll`, `Session.Annotate` and `ScoreOfScores` |
| AppSession.ScoreOf | app.py:102 | defined by its body (`berakningar.get(x, 0)`, the generic `Get` on the score dict); pinned down by `ScoreOfScores` and `Rank` |
| AppSession.ScoreOfScores | app.py:100-102 | `berakningar.get(x, 0)` of a company in the dict is its score |
| AppSession.AnnotateRecordIdempotent | app.py:94-99 | annotating twice, as each rerun of the script does, gives the record annotated once |
| AppSession.AnnotateKeepsScore | app.py:100 | annotation leaves a company's score unchanged |
| AppSession.UpdatedOnAll | app.py:94-99 | once every name has been visited, the records are the annotated dict |
| AppSession.ScoredOnAll | app.py:100 | once every name has been visited, `berakningar` holds every company's score |
| AppSession.Rank | app.py:102 | a permutation of the names, non-increasing by score (0 when absent), with equal scores kept in dict order |
| AppSession.Select | app.py:107-109 | "show all" gives the full ranking; otherwise an order-preserving subsequence of exactly the names above 30 % on either method |
| AppSession.Above30 | app.py:108 | defined by its body (the stored percentage, 0 when absent, is above 30); pinned down by `ThresholdIsStrict` and `UndervaluedAfterAnnotation` |
| AppSession.Undervalued | app.py:108 | defined by its body (either stored percentage is above 30); pinned down by `ThresholdIsStrict`, `UndervaluedAfterAnnotation`, `Select` and `Selection` |
| AppSession.ThresholdIsStrict | app.py:108 | a company at exactly 30 % on both methods is excluded, one at 30.01 % on either is kept |
| AppSession.UndervaluedAfterAnnotation | app.py:94-108 | after annotation, the filter keeps a name iff either percentage from `calculate_targets` is above 30 |
| AppSession.AnnotatedNumeric | app.py:96-108 | annotated percentages are numbers, so the comparison with 30 cannot raise |
| AppSession.ModUnique | app.py:115 | any q·n + r with 0 ≤ r < n leaves remainder r under Python's `%` |
| AppSession.WrapIndex | app.py:115 | `index % n` is a valid position for every index, negative ones included, and differs from `index` by whole rounds of n |
| AppSession.WrapNext | app.py:115-131 | "next" moves the shown position one on, wrapping from the last to the first |
| AppSession.WrapPrevious | app.py:115-128 | "previous" moves the shown position one back, wrapping from the first to the last |
| AppSession.Current | app.py:111-116 | no company iff the selection is empty; otherwise the selection's entry at position `index % len` |
| AppSession.CurrentNext | app.py:115-131 | after "next" the company shown is the one after the previous one, the first after the last |
| AppSession.CurrentPrevious | app.py:115-128 | after "previous" the company shown is the one before the previous one, the last before the first |
| AppSession.Selection | app.py:94-109 | `valda_bolag` holds names of the dict only: every one with "show all" on, otherwise exactly those above 30 % on either method, ordered from the highest score down; it is the stable ranking itself with "show all" on, and an order-preserving subsequence of it otherwise, so each name appears once and equal scores keep dict order |
| AppSession.Shown | app.py:86-116 | nothing for an empty dict; with "show all" on, something iff the dict is non-empty; with it off, something iff some company is above 30 %, and what is shown is one of them |
| AppSession.ShownIsCurrent | app.py:111-116 | with a non-empty selection, the company shown is the selection's entry at the wrapped index |
| AppSession.ShownTopAtStart | app.py:100-116 | with the index at 0, the company shown scores at least as much as every company the filter lets through |
| AppSession.KeyOrder | app.py:66-102 | defined by its body (the dict's insertion order lists every key once); kept by `KeyOrderAssign` and `Session.Upsert`, and it is the order `Rank` keeps equal scores in |
| AppSession.KeyOrderAssign | app.py:66 | assigning a key keeps a known key in its place and appends a new one |
| AppSession.Session.constructor | app.py:44-105 | the session starts on the loaded dict, with the index at 0 |
| AppSession.Session.Upsert | app.py:65-82 | an empty name changes nothing; otherwise that record is replaced by the form's record, every other company is untouched, a new name goes last, and the dict is saved |
| AppSession.Session.StoreForm | app.py:66-80 | the record of the name becomes the form's record, and no other record changes |
| AppSession.Session.AddMultiples | app.py:78-80 | the loop writes pe1..pe4 and ps1..ps4 into that record alone |
| AppSession.Session.Annotate | app.py:93-100 | every record is annotated, and `berakningar` maps each name to its score |
| AppSession.Session.AnnotateOne | app.py:95-100 | one record is annotated, and its score is returned |
| AppSession.Session.Browse | app.py:86-116 | an empty dict is left alone; otherwise the records are annotated and the company shown is `Shown` of the dict before the pass |
| AppSession.Session.Previous | app.py:127-128 | the index drops by one |
| AppSession.Session.Next | app.py:130-131 | the index rises by one |
| DataHandler.RequiredFields | data_handler.py:10-31 | defined by its value (the twenty fields with their defaults); pinned down by `RequiredOrderLists`, `WithDefaults` and `CompletionKeepsTargets` |
| DataHandler.RequiredOrder | data_handler.py:10-31 | defined by its value (the dict literal's key order); pinned down by `RequiredOrderLists` |
| DataHandler.RequiredOrderLists | data_handler.py:10-31 | the loop's key order lists exactly the keys of `REQUIRED_FIELDS` |
| DataHandler.WithDefaults | data_handler.py:10-39 | the keys of the record and of `REQUIRED_FIELDS`; present values kept; missing ones given exactly their listed default |
| DataHandler.SetDefault | data_handler.py:39 | `setdefault` keeps a present value, adds the default for a missing key, and touches no other key |
| DataHandler.SetDefaultStep | data_handler.py:38-39 | one more `setdefault` extends the completed prefix of the loop by one key |
| DataHandler.DefaultedOnAll | data_handler.py:38-39 | once every required key has been visited, the record is the completed record |
| DataHandler.Bolag.constructor | data_handler.py:33-40 | a `Bolag` object holds exactly the dict it is made from, the object `ensure_required_fields` fills in place |
| DataHandler.EnsureRequiredFields | data_handler.py:33-40 | fills the record in place, so it becomes the completed record, and returns the same object |
| DataHandler.CompletionKeepsReads | data_handler.py:10-39 | completion leaves the `float()` of every field `calculate_targets` reads as it was: the only such fields it adds are the multiples at 0.0 |
| DataHandler.CompletionKeepsTargets | data_handler.py:33-40 | `calculate_targets` gives the same four numbers for a record before and after completion |
| DataHandler.CompleteHasRequired | data_handler.py:38-39 | afterwards every required field is present |
| DataHandler.WithDefaultsIdempotent | data_handler.py:38-40 | completing twice gives the same record as completing once |
| DataHandler.CompleteRecordUnchanged | data_handler.py:38-39 | a record that already has every required field is left as it is |
| DataHandler.DeleteCompany | data_handler.py:58-62 | for 0 ≤ index < len: saved, one shorter, and the others in order; any other index, negative included: unchanged and not saved |
| DataHandler.DeleteRemovesOne | data_handler.py:60-61 | exactly the element at the index is gone, and the rest is an order-preserving subsequence |
| PyBuiltins.Get | app.py:21-32 | defined by its body (`dict.get` on any dict, a record or `berakningar`: the stored value, else the default); pinned down by `MissingMultipleCountsAsZero` and `Ps0DefaultsToOne` |
| PyBuiltins.ToFloat | utils.py:9-10 | defined by its body (`None` raises, a number is itself, a string is parsed); pinned down by `ParseIntString`, `ParseFractionExample`, `ParsePlusExample`, `ParseTwoDotsExample` and `ParseRejectsExample` |
| PyBuiltins.Sum | app.py:23-24 | defined by its body (`sum` of a list); pinned down by `SumOfFour` and `MeanOfTwo` |
| PyBuiltins.Mean | Utils.py:27-28 | defined by its body (`sum` over the length); pinned down by `MeanOfTwo`, `AveragedPe` and `AveragedPs` |
| PyBuiltins.MeanOfTwo | Utils.py:27-28 | the mean of two values is their midpoint |
| PyBuiltins.ParseUnsigned | utils.py:9-10 | defined by its body (digits, at most one dot, at least one digit); pinned down by `ParseDigits`, `ParseFractionExample` and `ParseTwoDotsExample` |
| PyBuiltins.ParseDecimal | utils.py:9-10 | defined by its body (an optional sign before an unsigned numeral); pinned down by `ParseUnsignedDigits`, `ParseNegatedDigits`, `ParseIntString`, `ParsePlusExample` and `ParseRejectsExample` |
| PyBuiltins.ParseIntString | utils.py:9-10 | `float(str(n)) == n` for every integer n, signed or not |
| PyBuiltins.DecimalDigitsValue | utils.py:9-10 | the decimal digits of n read back as n |
| PyBuiltins.ParseDigits | utils.py:9-10 | a numeral without a dot reads as the value of its digits |
| PyBuiltins.ParseUnsignedDigits | utils.py:9-10 | an unsigned numeral reads as its value |
| PyBuiltins.ParseNegatedDigits | utils.py:9-10 | a '-' followed by a numeral reads as the negated value |
| PyBuiltins.ParseFractionExample | utils.py:9-10 | "12.5" converts to 12.5 |
| PyBuiltins.ParsePlusExample | utils.py:9-10 | "+7" converts to 7 |
| PyBuiltins.ParseTwoDotsExample | utils.py:9-13 | "1.2.3" raises ValueError, so the result is `None` |
| PyBuiltins.ParseRejectsExample | utils.py:9-13 | "", "n/a" and `None` make `float()` raise |
| PyBuiltins.Round2 | utils.py:11 | `round(x, 2)` lies within half a hundredth of x |
| PyBuiltins.Round2Cents | utils.py:11 | a value that already has two decimals is left as it is, so rounding twice is rounding once |
| PyBuiltins.Round2Monotone | utils.py:52 | rounding preserves order, so rounding the maximum bounds each rounded part |
| PyBuiltins.Max | app.py:100 | `max(a, b)` is one of a and b and at least both |
| PyBuiltins.MaxOf | utils.py:52 | `max` of a non-empty list is an element that bounds every element |
| Sequences.SortDesc | app.py:102 | stable descending sort: a permutation, non-increasing, and each key's elements in their original order |
| Sequences.InsertDescStable | app.py:102 | one insertion step keeps the order among elements with equal keys |
| Sequences.Filter | app.py:107-109 | a subsequence of exactly the elements that pass, each as often as in the input |
| Sequences.SubsequenceNonIncreasing | app.py:107-109 | filtering a list sorted from the highest key down leaves it sorted |
| Sequences.SubsequenceMembers | app.py:107-109 | every element of a filtered list is in the original |
| Sequences.SkipOneIsSubsequence | data_handler.py:61 | `del data[index]` leaves an order-preserving subsequence |

## Left out

- File I/O. This covers `load_data` and `save_data` in `app.py`, `Utils.py` and `data_handler.py`, and the file-existence checks. The file's contents are the ghost field `Session.saved`, set after an upsert. `DeleteCompany` returns a `saved` flag.
- The `load_data` of `data_handler.py`: it is I/O. It applies `ensure_required_fields` to each loaded record, which is modelled one record at a time by `EnsureRequiredFields`.
- Streamlit rendering: titles, metrics, `st.write`, buttons, checkboxes, forms and messages. Only the logic is kept. The form's values arrive as a `Form` value, the checkbox as `visaAlla`, and button presses as calls to `Previous` and `Next`.
- `forms.py`: it is widget code.
- `datetime.now()` on `app.py:76` is the `today` parameter of `Upsert`.
- Float arithmetic: numbers are exact reals, so rounding error, overflow, `inf` and `nan` are not modelled.
- Round2: rounds half to even on the exact real value. Python rounds the binary double, which can go the other way for values that are not exactly representable.
- PyBuiltins.ToFloat: accepts only an optional sign, ASCII digits and at most one dot. It does not accept surrounding whitespace, exponents, underscores, `inf`, `nan` or the non-ASCII Unicode decimal digits, all of which Python's `float()` also accepts.
- AppSession.Select: requires both stored percentages to be numbers or absent. A stored string makes `> 30` raise `TypeError`, which `main` does not catch. The requirement always holds after annotation (`AnnotatedNumeric`).
- GuardedValuation.CalculateTargetkursPe, GuardedValuation.CalculateTargetkursPs and GuardedValuation.CalculateUndervardering: their arguments are `None` or numbers. Other Python values are not modelled. A string, for example, would make the arithmetic raise inside the `try` and give `None`. On numbers, the generic `except Exception` never fires.
- AppSession.Session.Browse: returns the name of the company shown. The fields it displays (`app.py:119-123`) are not modelled. A stored record without `kurs` is possible, because `data_handler.py` completes `nuvarande_kurs` and not `kurs`. For such a record, `b["kurs"]` on `app.py:120` raises `KeyError` after the subheader is drawn, so that pass stops and the buttons on `app.py:125-131` are not shown. The model still allows `Next` or `Previous` after such a pass.
- Button timing: `app.py:127-131` reads the buttons after the company is displayed (`app.py:115-123`). The rerun a click starts changes the index only after showing the old company, so the new one shows on the following pass. The model sequences this as `Next` or `Previous` followed by the next `Browse`.
