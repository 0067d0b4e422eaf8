/** data_handler.py: the fields every stored company record must have, completing a
    record with their defaults, and deleting a company from the stored list. */
module DataHandler {
  import opened PyBuiltins
  import opened AppValuation
  import opened Sequences

  /** REQUIRED_FIELDS: each field with its default, an empty string for the name and
      the two dates and 0.0 for every number. */
  const RequiredFields: map<string, PyValue> :=
    map["bolagsnamn" := PyStr(""), "nuvarande_kurs" := PyFloat(0.0), "vinst_fjol" := PyFloat(0.0),
        "vinst_igar" := PyFloat(0.0), "vinst_nastaar" := PyFloat(0.0), "oms_fjol" := PyFloat(0.0),
        "oms_tillv_igar" := PyFloat(0.0), "oms_tillv_nastaar" := PyFloat(0.0), "pe_nu" := PyFloat(0.0),
        "pe1" := PyFloat(0.0), "pe2" := PyFloat(0.0), "pe3" := PyFloat(0.0), "pe4" := PyFloat(0.0),
        "ps_nu" := PyFloat(0.0), "ps1" := PyFloat(0.0), "ps2" := PyFloat(0.0), "ps3" := PyFloat(0.0),
        "ps4" := PyFloat(0.0), "insatt_datum" := PyStr(""), "senast_andrad" := PyStr("")]

  /** The key order of the REQUIRED_FIELDS dict literal, the order `.items()` visits. */
  const RequiredOrder: seq<string> :=
    ["bolagsnamn", "nuvarande_kurs", "vinst_fjol", "vinst_igar", "vinst_nastaar", "oms_fjol",
     "oms_tillv_igar", "oms_tillv_nastaar", "pe_nu", "pe1", "pe2", "pe3", "pe4",
     "ps_nu", "ps1", "ps2", "ps3", "ps4", "insatt_datum", "senast_andrad"]

  lemma RequiredOrderLists()
    ensures forall k :: k in RequiredOrder <==> k in RequiredFields
  {
  }

  /** The record `bolag` completed with REQUIRED_FIELDS: every field it has keeps its
      value, every required field it lacks gets the default, and nothing else is
      added or removed. */
  function WithDefaults(bolag: Record): (r: Record)
    ensures forall k :: k in r <==> k in bolag || k in RequiredFields
    ensures forall k :: k in bolag ==> r[k] == bolag[k]
    ensures forall k :: k in RequiredFields && k !in bolag ==> r[k] == RequiredFields[k]
  {
    map k | k in bolag.Keys + RequiredFields.Keys :: if k in bolag then bolag[k] else RequiredFields[k]
  }

  /** A completed record has every required field. */
  lemma CompleteHasRequired(bolag: Record)
    ensures RequiredFields.Keys <= WithDefaults(bolag).Keys
  {
  }

  /** The only fields `calculate_targets` reads that completion adds are the
      historical multiples, at 0.0, the value a missing multiple already reads as. */
  lemma CompletionKeepsReads(bolag: Record, key: string, default: real)
    requires key in ReadKeys
    requires key in RequiredFields ==> default == 0.0
    ensures FieldAsFloat(WithDefaults(bolag), key, default) == FieldAsFloat(bolag, key, default)
  {
    if key in RequiredFields && key !in bolag {
      assert key in PeKeys || key in PsKeys;
    }
  }

  /** Completing a record does not change what `calculate_targets` gives for it. */
  lemma CompletionKeepsTargets(bolag: Record)
    ensures CalculateTargets(WithDefaults(bolag)) == CalculateTargets(bolag)
  {
    var full := WithDefaults(bolag);
    forall i | 0 <= i < |PeKeys|
      ensures FieldAsFloat(full, PeKeys[i], 0.0) == FieldAsFloat(bolag, PeKeys[i], 0.0)
    {
      CompletionKeepsReads(bolag, PeKeys[i], 0.0);
    }
    forall i | 0 <= i < |PsKeys|
      ensures FieldAsFloat(full, PsKeys[i], 0.0) == FieldAsFloat(bolag, PsKeys[i], 0.0)
    {
      CompletionKeepsReads(bolag, PsKeys[i], 0.0);
    }
    CompletionKeepsReads(bolag, "vinst_nasta_ar", 0.0);
    CompletionKeepsReads(bolag, "oms_tillv_nasta_ar", 0.0);
    CompletionKeepsReads(bolag, "oms_tillv_i_ar", 0.0);
    CompletionKeepsReads(bolag, "kurs", 0.0);
    CompletionKeepsReads(bolag, "ps0", 1.0);
    CalculateTargetsReadsOnly(full, bolag);
  }

  /** Completing twice is completing once: `setdefault` never overwrites. */
  lemma WithDefaultsIdempotent(bolag: Record)
    ensures WithDefaults(WithDefaults(bolag)) == WithDefaults(bolag)
  {
    var once := WithDefaults(bolag);
    var twice := WithDefaults(once);
    assert twice.Keys == once.Keys;
    forall k | k in once
      ensures twice[k] == once[k]
    {
    }
  }

  /** A record that already has every required field is left as it is. */
  lemma CompleteRecordUnchanged(bolag: Record)
    requires RequiredFields.Keys <= bolag.Keys
    ensures WithDefaults(bolag) == bolag
  {
    assert WithDefaults(bolag).Keys == bolag.Keys;
  }

  /** `after` is `before` after `setdefault` with each key of `done` and its default
      in `defaults`. */
  ghost predicate DefaultedOn(before: Record, after: Record, defaults: map<string, PyValue>, done: seq<string>)
  {
    && (forall k :: k in done ==> k in defaults)
    && (forall k :: k in after <==> k in before || k in done)
    && (forall k :: k in before ==> after[k] == before[k])
    && (forall k :: k in after && k !in before ==> after[k] == defaults[k])
  }

  /** `dict.setdefault(key, default)`: the value already there, or `default` added. */
  function SetDefault(d: Record, key: string, default: PyValue): (r: Record)
    ensures key in r && r.Keys == d.Keys + {key}
    ensures r[key] == if key in d then d[key] else default
    ensures forall k :: k in d && k != key ==> r[k] == d[k]
  {
    if key in d then d else d[key := default]
  }

  lemma SetDefaultStep(before: Record, after: Record, defaults: map<string, PyValue>, done: seq<string>, key: string)
    requires DefaultedOn(before, after, defaults, done)
    requires key in defaults
    ensures DefaultedOn(before, SetDefault(after, key, defaults[key]), defaults, done + [key])
  {
    assert forall k :: k in done + [key] <==> k in done || k == key;
  }

  lemma DefaultedOnAll(before: Record, after: Record, done: seq<string>)
    requires DefaultedOn(before, after, RequiredFields, done)
    requires forall k :: k in RequiredFields ==> k in done
    ensures after == WithDefaults(before)
  {
  }

  /** A stored company record, a dict that `ensure_required_fields` fills in place. */
  class Bolag {
    var fields: Record

    constructor (fields: Record)
      ensures this.fields == fields
    {
      this.fields := fields;
    }
  }

  /** `ensure_required_fields`: `setdefault` for every required field, in the order of
      the dict literal, on the record itself, which is then returned. */
  method EnsureRequiredFields(bolag: Bolag) returns (r: Bolag)
    modifies bolag
    ensures r == bolag
    ensures bolag.fields == WithDefaults(old(bolag.fields))
  {
    RequiredOrderLists();
    var i := 0;
    while i < |RequiredOrder|
      invariant 0 <= i <= |RequiredOrder|
      invariant DefaultedOn(old(bolag.fields), bolag.fields, RequiredFields, RequiredOrder[..i])
    {
      var field := RequiredOrder[i];
      assert RequiredOrder[..i + 1] == RequiredOrder[..i] + [field];
      SetDefaultStep(old(bolag.fields), bolag.fields, RequiredFields, RequiredOrder[..i], field);
      bolag.fields := SetDefault(bolag.fields, field, RequiredFields[field]);
      i := i + 1;
    }
    assert RequiredOrder[..i] == RequiredOrder;
    DefaultedOnAll(old(bolag.fields), bolag.fields, RequiredOrder);
    r := bolag;
  }

  /** The in-memory part of `delete_company`: with `0 <= index < len(data)` that one
      company is removed and the list is saved; any other index, negative ones
      included, leaves the list as it was and saves nothing. */
  method DeleteCompany(data: seq<Record>, index: int) returns (remaining: seq<Record>, saved: bool)
    ensures saved <==> 0 <= index < |data|
    ensures !saved ==> remaining == data
    ensures saved ==> |remaining| == |data| - 1
    ensures saved ==> forall j :: 0 <= j < index ==> remaining[j] == data[j]
    ensures saved ==> forall j :: index <= j < |remaining| ==> remaining[j] == data[j + 1]
  {
    remaining := data;
    saved := false;
    if 0 <= index < |data| {
      remaining := data[..index] + data[index + 1..];
      saved := true;
    }
  }

  /** Deleting removes exactly the record at `index`: the rest, in their order. */
  lemma {:induction false} DeleteRemovesOne(data: seq<Record>, index: int, remaining: seq<Record>)
    requires 0 <= index < |data|
    requires |remaining| == |data| - 1
    requires forall j :: 0 <= j < index ==> remaining[j] == data[j]
    requires forall j :: index <= j < |remaining| ==> remaining[j] == data[j + 1]
    ensures multiset(remaining) + multiset{data[index]} == multiset(data)
    ensures IsSubsequence(remaining, data)
  {
    assert remaining == data[..index] + data[index + 1..];
    assert data == data[..index] + [data[index]] + data[index + 1..];
    SkipOneIsSubsequence(data, index);
  }
}
