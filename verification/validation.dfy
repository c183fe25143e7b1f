/** Validation of a draft prescription (src/services/validation/PrescriptionValidator.php,
    class `PrescriptionValidator`). An external statistics script is tried
    first; its outcome is an input here, `None` when it could not be run or
    its output was not JSON. When it fails, a fixed set of checks runs instead. */
module Validation {
  import opened Wrappers
  import opened Strings
  import opened Search
  import opened Ocr

  /** Below this confidence a prescription must be checked by a person. */
  const ReviewThreshold: real := 0.85

  /** The `validation` record: from the script, or built by the fallback checks. */
  datatype ValidationResult = ValidationResult(isValid: bool, errors: seq<string>, warnings: seq<string>, confidence: real)

  /** What `validate` returns: the draft's own fields (`array_merge` keeps
      every one of them, since none is named like the three added keys),
      the validation record, the confidence to route on, and the review flag. */
  datatype Validated = Validated(draft: Draft, validation: ValidationResult, confidence: real, requiresManualReview: bool)

  const PatientNameMissing: string := "Patient name is missing"
  const DoctorIncomplete: string := "Doctor information is incomplete"
  const NoMedications: string := "No medications found"
  const MedicationNameMissing: string := "Medication name is missing"
  const InvalidDosagePrefix: string := "Invalid dosage format for "

  /** PHP's `empty()` on a draft field: absent, "" or "0". */
  predicate IsBlank(v: Option<string>) {
    v.None? || IsFalsy(v.value)
  }

  /*---------------------------------------------------------------------------
   * The fallback dosage pattern `/\d+\s*(mg|ml|g)/i`
   *-------------------------------------------------------------------------*/

  /** `(mg|ml|g)` at `k`, any letter case. */
  predicate UnitAt(s: string, k: nat) {
    MatchesAt(s, k, "mg") || MatchesAt(s, k, "ml") || MatchesAt(s, k, "g")
  }

  /** `preg_match('/\d+\s*(mg|ml|g)/i', s)`. A match is decided by the last
      digit of its digit run and the white space after it: the greedy `\s*`
      stops at the first non-space, and a unit starts with a letter, so
      shorter runs never match where the longest does not. */
  predicate HasDosageUnit(s: string) {
    exists d :: 0 <= d < |s| && IsDigit(s[d]) && UnitAt(s, Skip(s, d + 1, IsSpace))
  }

  /** The pattern read literally: somewhere a non-empty run of digits, then a
      run of white space, then a unit. */
  ghost predicate DosagePattern(s: string) {
    exists i, j, k :: 0 <= i < j <= k <= |s| && DigitsSpacesUnit(s, i, j, k)
  }

  ghost predicate DigitsSpacesUnit(s: string, i: nat, j: nat, k: nat)
    requires i < j <= k <= |s|
  {
    && (forall q :: i <= q < j ==> IsDigit(s[q]))
    && (forall q :: j <= q < k ==> IsSpace(s[q]))
    && UnitAt(s, k)
  }

  /** A unit starts with a letter, never with white space. */
  lemma UnitNotSpace(s: string, k: nat)
    requires UnitAt(s, k)
    ensures k < |s| && !IsSpace(s[k])
  {
    assert Lower(s[k..k + 1])[0] == ToLower(s[k]);
    if MatchesAt(s, k, "mg") || MatchesAt(s, k, "ml") {
      assert Lower(s[k..k + 2])[0] == ToLower(s[k]);
    }
  }

  /** The scan above decides exactly the pattern. */
  lemma HasDosageUnitMeansPattern(s: string)
    ensures HasDosageUnit(s) <==> DosagePattern(s)
  {
    if HasDosageUnit(s) {
      var d :| 0 <= d < |s| && IsDigit(s[d]) && UnitAt(s, Skip(s, d + 1, IsSpace));
      assert DigitsSpacesUnit(s, d, d + 1, Skip(s, d + 1, IsSpace));
    }
    if DosagePattern(s) {
      var i, j, k :| 0 <= i < j <= k <= |s| && DigitsSpacesUnit(s, i, j, k);
      UnitNotSpace(s, k);
      SkipTo(s, j, IsSpace, k);
      assert IsDigit(s[j - 1]);
    }
  }

  /** A dosage the medication pattern accepted always passes the fallback check. */
  lemma ShapedDosagePasses(s: string)
    requires DosageShape(s)
    ensures !IsFalsy(s) && HasDosageUnit(s)
  {
    var d :| DosageSplit(s, d);
    var k := |s| - 2;
    assert s[k] == s[k..][0] == 'm';
    assert MatchesAt(s, k, "mg") || MatchesAt(s, k, "ml") by {
      assert s[k..k + 2] == s[k..];
    }
    assert DigitsSpacesUnit(s, 0, d, k);
    HasDosageUnitMeansPattern(s);
  }

  /*---------------------------------------------------------------------------
   * basicValidation
   *-------------------------------------------------------------------------*/

  /** The error for one medication, if its name is missing. */
  function NameError(m: Medication): Option<string> {
    if IsFalsy(m.name) then Some(MedicationNameMissing) else None
  }

  /** The warning for one medication, if its dosage is missing or has no unit.
      The name is always set on a medication, so the `?? 'medication'`
      default never applies. */
  function DosageWarning(m: Medication): Option<string> {
    if IsFalsy(m.dosage) || !HasDosageUnit(m.dosage) then Some(InvalidDosagePrefix + m.name) else None
  }

  /** The draft-level errors, in the order they are checked. Missing doctor
      name and missing CRM share one error. */
  function DraftErrors(d: Draft): seq<string> {
    (if IsBlank(d.patientName) then [PatientNameMissing] else [])
    + (if IsBlank(d.doctorName) || IsBlank(d.crm) then [DoctorIncomplete] else [])
    + (if d.medications == [] then [NoMedications] else [])
  }

  /** `basicValidation`: the checks that run when the script fails. */
  function BasicValidation(r: OcrResult): (v: Validated)
    ensures v.draft == r.draft
    ensures v.confidence == v.validation.confidence
    ensures v.validation.isValid <==> v.validation.errors == []
    ensures v.confidence == if v.validation.isValid then r.confidence else r.confidence * 0.5
    ensures v.requiresManualReview <==> v.validation.errors != [] || v.validation.warnings != []
  {
    var errors := DraftErrors(r.draft) + FilterMap(r.draft.medications, NameError);
    var warnings := FilterMap(r.draft.medications, DosageWarning);
    var confidence := r.confidence * (if errors == [] then 1.0 else 0.5);
    Validated(r.draft, ValidationResult(errors == [], errors, warnings, confidence), confidence, errors != [] || warnings != [])
  }

  /** The fallback accepts a draft exactly when the patient, the doctor and
      the CRM are all present and non-blank, there is at least one
      medication, and every medication has a non-blank name. Dosages play no
      part. */
  lemma BasicValidIffComplete(r: OcrResult)
    ensures var d := r.draft;
      BasicValidation(r).validation.isValid <==>
        && !IsBlank(d.patientName) && !IsBlank(d.doctorName) && !IsBlank(d.crm)
        && d.medications != []
        && forall i :: 0 <= i < |d.medications| ==> !IsFalsy(d.medications[i].name)
  {
    FilterMapEmpty(r.draft.medications, NameError);
  }

  /** Warnings never change validity or confidence: two drafts that differ
      only in their medications' dosages validate alike. */
  lemma WarningsDoNotAffectValidity(r1: OcrResult, r2: OcrResult)
    requires r1.confidence == r2.confidence
    requires r1.draft.(medications := []) == r2.draft.(medications := [])
    requires |r1.draft.medications| == |r2.draft.medications|
    requires forall i :: 0 <= i < |r1.draft.medications| ==> r1.draft.medications[i].name == r2.draft.medications[i].name
    ensures BasicValidation(r1).validation.isValid == BasicValidation(r2).validation.isValid
    ensures BasicValidation(r1).validation.errors == BasicValidation(r2).validation.errors
    ensures BasicValidation(r1).confidence == BasicValidation(r2).confidence
  {
    var d1, d2 := r1.draft, r2.draft;
    assert d1.patientName == d2.patientName && d1.doctorName == d2.doctorName && d1.crm == d2.crm;
    SameNamesSameErrors(d1.medications, d2.medications);
  }

  lemma {:induction false} SameNamesSameErrors(ms1: seq<Medication>, ms2: seq<Medication>)
    requires |ms1| == |ms2|
    requires forall i :: 0 <= i < |ms1| ==> ms1[i].name == ms2[i].name
    ensures FilterMap(ms1, NameError) == FilterMap(ms2, NameError)
    decreases |ms1|
  {
    if ms1 != [] {
      SameNamesSameErrors(ms1[1..], ms2[1..]);
    }
  }

  /** One warning per medication whose dosage fails the check, in list
      order, each naming that medication; and each such medication has one. */
  lemma WarningOrigins(r: OcrResult)
    ensures var ms := r.draft.medications; var w := BasicValidation(r).validation.warnings;
      var o := Kept(ms, DosageWarning);
      && |o| == |w|
      && (forall j :: 0 <= j < |o| ==>
            && o[j] < |ms|
            && (IsFalsy(ms[o[j]].dosage) || !HasDosageUnit(ms[o[j]].dosage))
            && w[j] == InvalidDosagePrefix + ms[o[j]].name)
      && (forall j, k :: 0 <= j < k < |o| ==> o[j] < o[k])
      && (forall i :: 0 <= i < |ms| && (IsFalsy(ms[i].dosage) || !HasDosageUnit(ms[i].dosage)) ==> i in o)
  {
    var ms := r.draft.medications;
    var o := Kept(ms, DosageWarning);
    assert forall i :: 0 <= i < |ms| && (IsFalsy(ms[i].dosage) || !HasDosageUnit(ms[i].dosage)) ==> DosageWarning(ms[i]).Some?;
  }

  /** The errors are the draft-level ones, then one per nameless
      medication, in list order. */
  lemma NameErrorOrigins(r: OcrResult)
    ensures var ms := r.draft.medications; var e := BasicValidation(r).validation.errors;
      var pre := |DraftErrors(r.draft)|; var o := Kept(ms, NameError);
      && pre <= 3
      && |e| == pre + |o|
      && e[..pre] == DraftErrors(r.draft)
      && (forall j :: 0 <= j < |o| ==> o[j] < |ms| && IsFalsy(ms[o[j]].name) && e[pre + j] == MedicationNameMissing)
      && (forall j, k :: 0 <= j < k < |o| ==> o[j] < o[k])
      && (forall i :: 0 <= i < |ms| && IsFalsy(ms[i].name) ==> i in o)
  {
    var ms := r.draft.medications;
    assert forall i :: 0 <= i < |ms| && IsFalsy(ms[i].name) ==> NameError(ms[i]).Some?;
  }

  /** The draft-level errors: each reports its own missing part, at most once,
      and they come in the order patient, doctor, medications. */
  lemma DraftErrorsOrder(d: Draft)
    ensures var e := DraftErrors(d);
      && (PatientNameMissing in e <==> IsBlank(d.patientName))
      && (DoctorIncomplete in e <==> IsBlank(d.doctorName) || IsBlank(d.crm))
      && (NoMedications in e <==> d.medications == [])
      && (|e| > 0 && IsBlank(d.patientName) ==> e[0] == PatientNameMissing)
      && (|e| > 0 && !IsBlank(d.patientName) && (IsBlank(d.doctorName) || IsBlank(d.crm)) ==> e[0] == DoctorIncomplete)
      && (d.medications == [] ==> e[|e| - 1] == NoMedications)
      && |e| == (if IsBlank(d.patientName) then 1 else 0)
              + (if IsBlank(d.doctorName) || IsBlank(d.crm) then 1 else 0)
              + (if d.medications == [] then 1 else 0)
  {
  }

  /** A draft produced by extraction never draws a dosage warning: the
      medication pattern only accepts dosages the fallback check accepts. */
  lemma ExtractedDraftHasNoWarnings(rawText: string, confidence: real)
    ensures BasicValidation(ExtractText(rawText, confidence)).validation.warnings == []
  {
    var ms := ExtractMedications(rawText);
    forall i | 0 <= i < |ms|
      ensures DosageWarning(ms[i]).None?
    {
      assert ms[i] in ms;
      ShapedDosagePasses(ms[i].dosage);
    }
    FilterMapEmpty(ms, DosageWarning);
  }

  /** On the fallback path the review flag ignores the 0.85 threshold: a
      complete draft read at confidence 0.5 is not flagged for review. */
  lemma FallbackIgnoresThreshold()
    ensures var r := OcrResult("", Draft(Some("Ana"), Some("Silva"), Some("12345"), None, [Medication("Dipirona", "500mg", "6/6h")]), 0.5, true);
      var v := BasicValidation(r);
      !v.requiresManualReview && v.confidence < ReviewThreshold
  {
    var m := Medication("Dipirona", "500mg", "6/6h");
    var r := OcrResult("", Draft(Some("Ana"), Some("Silva"), Some("12345"), None, [m]), 0.5, true);
    DipironaPasses();
    assert DraftErrors(r.draft) == [] by {
      assert !IsFalsy("Ana") && !IsFalsy("Silva") && !IsFalsy("12345");
    }
    CompleteDraftNoReview(r);
  }

  /** The medication of the example above draws neither an error nor a warning. */
  lemma DipironaPasses()
    ensures NameError(Medication("Dipirona", "500mg", "6/6h")).None?
    ensures DosageWarning(Medication("Dipirona", "500mg", "6/6h")).None?
  {
    assert DosageSplit("500mg", 3);
    ShapedDosagePasses("500mg");
  }

  /** A draft with every field filled and every dosage well formed is neither
      flagged nor down-weighted. */
  lemma CompleteDraftNoReview(r: OcrResult)
    requires DraftErrors(r.draft) == []
    requires forall i :: 0 <= i < |r.draft.medications| ==> NameError(r.draft.medications[i]).None? && DosageWarning(r.draft.medications[i]).None?
    ensures !BasicValidation(r).requiresManualReview && BasicValidation(r).confidence == r.confidence
  {
    FilterMapEmpty(r.draft.medications, NameError);
    FilterMapEmpty(r.draft.medications, DosageWarning);
  }

  /*---------------------------------------------------------------------------
   * The primary path and `validate`
   *-------------------------------------------------------------------------*/

  /** `requiresManualReview` on the script's result. */
  function RequiresManualReview(v: ValidationResult): (r: bool)
    ensures !v.isValid ==> r
    ensures v.confidence < ReviewThreshold ==> r
    ensures v.warnings != [] ==> r
    ensures r ==> !v.isValid || v.confidence < ReviewThreshold || v.warnings != []
  {
    !v.isValid || v.confidence < ReviewThreshold || v.warnings != []
  }

  /** The threshold is strict: a valid, warning-free result at exactly 0.85
      needs no review; a lower confidence can only add the need for one. */
  lemma ReviewThresholdBoundary(v: ValidationResult, lower: real)
    requires lower <= v.confidence
    ensures v.isValid && v.warnings == [] && v.confidence == 0.85 ==> !RequiresManualReview(v)
    ensures RequiresManualReview(v) ==> RequiresManualReview(v.(confidence := lower))
  {
  }

  /** `validate`: the script's result when it produced one, merged with the
      draft; otherwise the fallback checks. */
  function Validate(r: OcrResult, primary: Option<ValidationResult>): (v: Validated)
    ensures v.draft == r.draft
    ensures v.confidence == v.validation.confidence
    ensures primary.None? ==> v == BasicValidation(r)
    ensures primary.Some? ==> v.validation == primary.value && v.requiresManualReview == RequiresManualReview(primary.value)
  {
    match primary
    case None => BasicValidation(r)
    case Some(result) => Validated(r.draft, result, result.confidence, RequiresManualReview(result))
  }

  /** On the script's path, a record that needs no review is confident enough
      to go on; on the fallback path that fails (see `FallbackIgnoresThreshold`). */
  lemma PrimaryNoReviewMeansConfident(r: OcrResult, result: ValidationResult)
    ensures var v := Validate(r, Some(result));
      !v.requiresManualReview ==> v.confidence >= ReviewThreshold && v.validation.isValid && v.validation.warnings == []
  {
  }

  /** For an extracted draft read with a confidence of at most 1, the fallback
      flags a record for review exactly when its confidence is halved, so a
      flagged record always falls below the threshold. */
  lemma ExtractedFallbackFlagBelowThreshold(rawText: string, confidence: real)
    requires 0.0 <= confidence <= 1.0
    ensures var v := Validate(ExtractText(rawText, confidence), None);
      v.requiresManualReview ==> v.confidence < ReviewThreshold
  {
    ExtractedDraftHasNoWarnings(rawText, confidence);
  }
}
