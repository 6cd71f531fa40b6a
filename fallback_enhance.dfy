/**
 * `FallbackExtractor.enhance_extraction` of services/ai/fallback_extractor.py:
 * a copy of the extraction dictionary in which each of five critical fields
 * that is missing or false is filled from its regex extractor, when that
 * extractor finds a non-empty value.
 */
module FallbackEnhance {
  import opened Wrappers
  import opened Json
  import FallbackBillRate
  import FallbackFields

  /** The critical fields in the order they are filled, each with its extractor. */
  function CriticalFields(): seq<(string, string -> Option<string>)> {
    [ ("bill_rate", FallbackBillRate.ExtractBillRate),
      ("gbams_rgs_id", FallbackFields.ExtractGbamsId),
      ("duration", FallbackFields.ExtractDuration),
      ("ai_location", FallbackFields.ExtractLocation),
      ("msp_owner", FallbackFields.ExtractMspOwner) ]
  }

  /** The key of the `i`-th critical field. */
  function FieldName(i: nat): string
    requires i < 5
  {
    CriticalFields()[i].0
  }

  /** The value the `i`-th extractor finds in the description. */
  function FieldFallback(i: nat, jd: string): Option<string>
    requires i < 5
  {
    CriticalFields()[i].1(jd)
  }

  /** A field is written when its current value is false and the fallback is a non-empty string. */
  predicate Writes(current: Value, fallback: Option<string>) {
    !Truthy(current) && fallback.Some? && fallback.value != []
  }

  /** The value a field has after its step. */
  function Filled(current: Value, fallback: Option<string>): Value {
    if Writes(current, fallback) then Str(fallback.value) else current
  }

  /** One step of the loop, on field `name`. */
  function FillField(d: map<string, Value>, name: string, fallback: Option<string>): map<string, Value> {
    if Writes(Get(d, name), fallback) then d[name := Str(fallback.value)] else d
  }

  /** The five extractors' values for the description, in field order. */
  function Fallbacks(jd: string): (fbs: seq<Option<string>>)
    ensures |fbs| == 5 && forall i :: 0 <= i < 5 ==> fbs[i] == FieldFallback(i, jd)
  {
    seq(5, i requires 0 <= i < 5 => FieldFallback(i, jd))
  }

  /** The dictionary after the first `n` steps of the loop, field `i` having fallback `fbs[i]`. */
  function EnhancedUpTo(ai: map<string, Value>, fbs: seq<Option<string>>, n: nat): (r: map<string, Value>)
    requires n <= |fbs| == 5
    ensures ai.Keys <= r.Keys && |r| <= |ai| + n
  {
    if n == 0 then ai else FillField(EnhancedUpTo(ai, fbs, n - 1), FieldName(n - 1), fbs[n - 1])
  }

  /** The dictionary `enhance_extraction` returns. */
  function Enhanced(ai: map<string, Value>, jd: string): (r: map<string, Value>)
    ensures ai.Keys <= r.Keys && |r| <= |ai| + 5
  {
    EnhancedUpTo(ai, Fallbacks(jd), 5)
  }

  /** `enhance_extraction`: the loop over the critical fields, on a copy of `aiResult`. */
  method EnhanceExtraction(aiResult: map<string, Value>, originalJd: string) returns (enhanced: map<string, Value>)
    ensures enhanced == Enhanced(aiResult, originalJd)
  {
    enhanced := aiResult;
    var fields := CriticalFields();
    ghost var fbs := Fallbacks(originalJd);
    for i := 0 to |fields|
      invariant enhanced == EnhancedUpTo(aiResult, fbs, i)
    {
      var (fieldName, extractor) := fields[i];
      assert fieldName == FieldName(i) && extractor == CriticalFields()[i].1;
      ghost var previous := enhanced;
      if !Truthy(Get(enhanced, fieldName)) {
        var fallbackValue := extractor(originalJd);
        assert fallbackValue == FieldFallback(i, originalJd);
        if fallbackValue.Some? && fallbackValue.value != [] {
          enhanced := enhanced[fieldName := Str(fallbackValue.value)];
        }
      }
      assert enhanced == FillField(previous, FieldName(i), fbs[i]);
    }
  }

  // ------------------------------------------------------------ properties

  /** The five keys are distinct. */
  lemma FieldNamesDistinct(i: nat, j: nat)
    requires i < 5 && j < 5 && i != j
    ensures FieldName(i) != FieldName(j)
  {
  }

  /** Steps on other keys leave `key` as it was. */
  lemma {:induction false} UpToKeeps(ai: map<string, Value>, fbs: seq<Option<string>>, n: nat, key: string)
    requires n <= |fbs| == 5
    requires forall j :: 0 <= j < n ==> FieldName(j) != key
    ensures key in EnhancedUpTo(ai, fbs, n) <==> key in ai
    ensures Get(EnhancedUpTo(ai, fbs, n), key) == Get(ai, key)
  {
    if n > 0 {
      UpToKeeps(ai, fbs, n - 1, key);
    }
  }

  /** Once the step of field `i` has run, the field holds `Filled` of its input value. */
  lemma {:induction false} UpToField(ai: map<string, Value>, fbs: seq<Option<string>>, n: nat, i: nat)
    requires i < n <= |fbs| == 5
    ensures Get(EnhancedUpTo(ai, fbs, n), FieldName(i)) == Filled(Get(ai, FieldName(i)), fbs[i])
    ensures FieldName(i) in EnhancedUpTo(ai, fbs, n) <==> FieldName(i) in ai || Writes(Get(ai, FieldName(i)), fbs[i])
  {
    if n == i + 1 {
      forall j | 0 <= j < i ensures FieldName(j) != FieldName(i) {
        FieldNamesDistinct(j, i);
      }
      UpToKeeps(ai, fbs, i, FieldName(i));
    } else {
      UpToField(ai, fbs, n - 1, i);
      FieldNamesDistinct(n - 1, i);
    }
  }

  /**
   * Each critical field ends up as its input value when that is true, as
   * the extractor's value when the input is false and the extractor finds a
   * non-empty string, and as its input value otherwise.
   */
  lemma EnhancedField(ai: map<string, Value>, jd: string, i: nat)
    requires i < 5
    ensures Get(Enhanced(ai, jd), FieldName(i)) ==
      if Truthy(Get(ai, FieldName(i))) then Get(ai, FieldName(i))
      else if FieldFallback(i, jd).Some? && FieldFallback(i, jd).value != [] then Str(FieldFallback(i, jd).value)
      else Get(ai, FieldName(i))
    ensures FieldName(i) in Enhanced(ai, jd) <==> FieldName(i) in ai || Writes(Get(ai, FieldName(i)), FieldFallback(i, jd))
  {
    UpToField(ai, Fallbacks(jd), 5, i);
  }

  /** No key other than the five critical ones is added, removed or changed. */
  lemma EnhancedKeepsOtherKeys(ai: map<string, Value>, jd: string, key: string)
    requires forall j :: 0 <= j < 5 ==> FieldName(j) != key
    ensures key in Enhanced(ai, jd) <==> key in ai
    ensures key in ai ==> Enhanced(ai, jd)[key] == ai[key]
  {
    UpToKeeps(ai, Fallbacks(jd), 5, key);
  }

  /** A true value in the input is never overwritten, whatever its key. */
  lemma EnhancedNeverOverwritesTruthy(ai: map<string, Value>, jd: string, key: string)
    requires key in ai && Truthy(ai[key])
    ensures key in Enhanced(ai, jd) && Enhanced(ai, jd)[key] == ai[key]
  {
    if j :| 0 <= j < 5 && FieldName(j) == key {
      EnhancedField(ai, jd, j);
    } else {
      UpToKeeps(ai, Fallbacks(jd), 5, key);
    }
  }

  /** Whatever differs from the input is a critical field that was false and now holds a non-empty string. */
  lemma EnhancedWritesOnlyTruthyFallback(ai: map<string, Value>, jd: string, key: string)
    requires key in Enhanced(ai, jd) && (key !in ai || Enhanced(ai, jd)[key] != ai[key])
    ensures !Truthy(Get(ai, key)) && Enhanced(ai, jd)[key].Str? && Truthy(Enhanced(ai, jd)[key])
  {
    if j :| 0 <= j < 5 && FieldName(j) == key {
      EnhancedField(ai, jd, j);
    } else {
      UpToKeeps(ai, Fallbacks(jd), 5, key);
    }
  }

  /** Filling a field twice from the same fallback changes nothing the second time. */
  lemma FilledIdempotent(current: Value, fb: Option<string>)
    ensures Filled(Filled(current, fb), fb) == Filled(current, fb)
    ensures Writes(Filled(current, fb), fb) ==> Writes(current, fb)
  {
  }

  /** Enhancing an enhanced dictionary against the same description gives it back unchanged. */
  lemma EnhancedIdempotent(ai: map<string, Value>, jd: string)
    ensures Enhanced(Enhanced(ai, jd), jd) == Enhanced(ai, jd)
  {
    var e1 := Enhanced(ai, jd);
    var e2 := Enhanced(e1, jd);
    forall key | true
      ensures (key in e2 <==> key in e1) && Get(e2, key) == Get(e1, key)
    {
      if j :| 0 <= j < 5 && FieldName(j) == key {
        EnhancedField(ai, jd, j);
        EnhancedField(e1, jd, j);
        FilledIdempotent(Get(ai, key), FieldFallback(j, jd));
      } else {
        UpToKeeps(ai, Fallbacks(jd), 5, key);
        UpToKeeps(e1, Fallbacks(jd), 5, key);
      }
    }
    assert forall key :: key in e2 ==> e2[key] == Get(e2, key);
  }
}
