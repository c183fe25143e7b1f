/** Field extraction: from the recogniser's text to a draft prescription
    (src/services/ocr/OCRService.php). Each regular expression of the source
    is a hand-written matcher that tries candidates in the order a
    backtracking engine does: start positions left to right (`First` over
    positions), lazy quantifiers shortest first (`First`), greedy quantifiers
    longest first (`Last`). Where a greedy run is followed by a token that no
    character of the run can start, backing off can never succeed and the
    longest run is taken directly. */
module Ocr {
  import opened Wrappers
  import opened Strings
  import opened Search

  datatype Medication = Medication(name: string, dosage: string, frequency: string)

  /** `parsed_data`: a labelled field is `None` when its pattern does not
      match; the medication list is always there, possibly empty. The date
      stays the raw matched text. */
  datatype Draft = Draft(
    patientName: Option<string>,
    doctorName: Option<string>,
    crm: Option<string>,
    date: Option<string>,
    medications: seq<Medication>)

  /** What `extractText` hands to validation. */
  datatype OcrResult = OcrResult(rawText: string, draft: Draft, confidence: real, isHandwritten: bool)

  /** The recogniser confidence below which a document counts as handwritten. */
  const HandwritingThreshold: real := 0.7

  /*---------------------------------------------------------------------------
   * Labelled fields
   *-------------------------------------------------------------------------*/

  /** `(.+?)(?:\n|$)` with `.+?` starting at `k`: the shortest non-empty run
      of non-line-feed characters that is followed by a line feed or the end
      of the text (`$` also matches before a final line feed, which the line
      feed branch already covers). */
  function UpToLineEnd(t: string, k: nat): (r: Option<string>)
    ensures r.Some? ==> r.value != [] && '\n' !in r.value
  {
    if k > |t| then None
    else
      var e := LineEnd(t, k);
      First(k + 1, e, (j: nat) => if k < j <= e && (j == |t| || t[j] == '\n') then Some(t[k..j]) else None)
  }

  /** `\s*(.+?)(?:\n|$)` after a patient label ending at `q`. */
  function PatientValue(t: string, q: nat): (r: Option<string>)
    ensures r.Some? ==> r.value != [] && '\n' !in r.value
  {
    if q > |t| then None else Last(q, Skip(t, q, IsSpace), (k: nat) => UpToLineEnd(t, k))
  }

  /** `(?:Paciente|Nome):\s*(.+?)(?:\n|$)` (case-insensitive) tried at position `p`. */
  function PatientAt(t: string, p: nat): (r: Option<string>)
    ensures r.Some? ==> r.value != [] && '\n' !in r.value
  {
    (if MatchesAt(t, p, "Paciente:") then PatientValue(t, p + 9) else None)
      .OrElse(if MatchesAt(t, p, "Nome:") then PatientValue(t, p + 5) else None)
  }

  /** `(.+?)(?:\n|CRM)` with `.+?` starting at `k`: the shortest non-empty
      run of non-line-feed characters followed by a line feed or by `CRM`
      in any case. Unlike the patient rule there is no `$`: a last line
      without `CRM` does not match. */
  function UpToCrm(t: string, k: nat): (r: Option<string>)
    ensures r.Some? ==> r.value != [] && '\n' !in r.value
  {
    if k > |t| then None
    else
      var e := LineEnd(t, k);
      First(k + 1, e, j =>
        if k < j <= e && ((j < |t| && t[j] == '\n') || MatchesAt(t, j, "CRM")) then Some(t[k..j]) else None)
  }

  /** `\s*(.+?)(?:\n|CRM)` after a doctor title ending at `q`. */
  function DoctorValue(t: string, q: nat): (r: Option<string>)
    ensures r.Some? ==> r.value != [] && '\n' !in r.value
  {
    if q > |t| then None else Last(q, Skip(t, q, IsSpace), (k: nat) => UpToCrm(t, k))
  }

  /** `(?:Dr\.?|Dra\.?)\s*(.+?)(?:\n|CRM)` (case-insensitive) tried at `p`.
      Branches are tried in the pattern's order, the optional dot first. As
      `Dr` is tried before `Dra`, a title `Dra.` is read as `Dr` followed by
      a name starting with `a.`. */
  function DoctorAt(t: string, p: nat): (r: Option<string>)
    ensures r.Some? ==> r.value != [] && '\n' !in r.value
  {
    (if MatchesAt(t, p, "Dr.") then DoctorValue(t, p + 3) else None)
      .OrElse(if MatchesAt(t, p, "Dr") then DoctorValue(t, p + 2) else None)
      .OrElse(if MatchesAt(t, p, "Dra.") then DoctorValue(t, p + 4) else None)
      .OrElse(if MatchesAt(t, p, "Dra") then DoctorValue(t, p + 3) else None)
  }

  predicate IsColonOrSpace(c: char) {
    c == ':' || IsSpace(c)
  }

  /** `(\d+)` at `k`, greedy; nothing follows it in the pattern, so the longest run is the match. */
  function DigitsFrom(t: string, k: nat): (r: Option<string>)
    ensures r.Some? ==> r.value != [] && AllDigits(r.value)
  {
    if k > |t| then None
    else
      var d := Skip(t, k, IsDigit);
      if d > k then Some(t[k..d]) else None
  }

  /** `CRM[:\s]*(\d+)` (case-insensitive) tried at `p`. */
  function CrmAt(t: string, p: nat): (r: Option<string>)
    ensures r.Some? ==> r.value != [] && AllDigits(r.value)
  {
    if !MatchesAt(t, p, "CRM") then None
    else Last(p + 3, Skip(t, p + 3, IsColonOrSpace), (k: nat) => DigitsFrom(t, k))
  }

  /** `\d{min,max}` at `i`, greedy, followed by whatever `rest` matches from the end of the digits. */
  function Repeat(t: string, i: nat, min: nat, max: nat, rest: nat -> Option<string>): (r: Option<string>)
    ensures r.Some? ==> exists j :: i + min <= j <= i + max && j <= |t| && (forall k :: i <= k < j ==> IsDigit(t[k])) && rest(j) == r
  {
    if i > |t| then None
    else
      var available := Skip(t, i, IsDigit) - i;
      var n := if available < max then available else max;
      if n < min then None else Last(i + min, i + n, rest)
  }

  /** The three stages of `\d{1,2}\/\d{1,2}\/\d{2,4}` begun at `k`: after
      the day digits end at `j`, after the month digits, after the year digits. */
  function AfterDay(t: string, k: nat, j: nat): Option<string> {
    if !StartsAt(t, j, "/") then None else Repeat(t, j + 1, 1, 2, DateMonth(t, k))
  }

  function AfterMonth(t: string, k: nat, j: nat): Option<string> {
    if !StartsAt(t, j, "/") then None else Repeat(t, j + 1, 2, 4, DateYear(t, k))
  }

  function AfterYear(t: string, k: nat, j: nat): Option<string> {
    if k <= j <= |t| then Some(t[k..j]) else None
  }

  function DateDay(t: string, k: nat): nat -> Option<string> { (j: nat) => AfterDay(t, k, j) }
  function DateMonth(t: string, k: nat): nat -> Option<string> { (j: nat) => AfterMonth(t, k, j) }
  function DateYear(t: string, k: nat): nat -> Option<string> { (j: nat) => AfterYear(t, k, j) }

  /** `\d{1,2}\/\d{1,2}\/\d{2,4}` at `k`: the date text, unparsed. */
  function DateFrom(t: string, k: nat): Option<string>
  {
    Repeat(t, k, 1, 2, DateDay(t, k))
  }

  /** One or two digits, a slash, one or two digits, a slash, two to four digits. */
  ghost predicate DateShape(s: string) {
    exists a, b :: DateSlashes(s, a, b)
  }

  ghost predicate DateSlashes(s: string, a: nat, b: nat) {
    && 1 <= a <= 2 && a + 2 <= b <= a + 3 && b + 3 <= |s| <= b + 5
    && s[a] == '/' && s[b] == '/'
    && forall i :: 0 <= i < |s| && i != a && i != b ==> IsDigit(s[i])
  }

  /** Whatever the date pattern captures has the date shape. */
  lemma DateFromShape(t: string, k: nat)
    ensures DateFrom(t, k).Some? ==> DateShape(DateFrom(t, k).value)
  {
    if DateFrom(t, k).Some? {
      var j1 := RepeatEnd(t, k, 1, 2, DateDay(t, k));
      var j2, j3 := AfterDayEnds(t, k, j1);
      DateSlashesAt(t, k, j1, j2, j3);
    }
  }

  /** Where the digits read by a successful `Repeat` end. */
  lemma RepeatEnd(t: string, i: nat, min: nat, max: nat, rest: nat -> Option<string>) returns (j: nat)
    requires Repeat(t, i, min, max, rest).Some?
    ensures i + min <= j <= i + max && j <= |t| && (forall x :: i <= x < j ==> IsDigit(t[x]))
    ensures rest(j) == Repeat(t, i, min, max, rest)
  {
    j :| i + min <= j <= i + max && j <= |t| && (forall x :: i <= x < j ==> IsDigit(t[x])) && rest(j) == Repeat(t, i, min, max, rest);
  }

  /** Where the month and the year digits end, once the day digits end at `j1`. */
  lemma AfterDayEnds(t: string, k: nat, j1: nat) returns (j2: nat, j3: nat)
    requires AfterDay(t, k, j1).Some?
    ensures StartsAt(t, j1, "/") && j1 + 2 <= j2 <= j1 + 3 && (forall x :: j1 + 1 <= x < j2 ==> IsDigit(t[x]))
    ensures StartsAt(t, j2, "/") && j2 + 3 <= j3 <= j2 + 5 && j3 <= |t| && (forall x :: j2 + 1 <= x < j3 ==> IsDigit(t[x]))
    ensures k <= j3 && AfterDay(t, k, j1) == Some(t[k..j3])
  {
    assert StartsAt(t, j1, "/") && AfterDay(t, k, j1) == Repeat(t, j1 + 1, 1, 2, DateMonth(t, k));
    j2 := RepeatEnd(t, j1 + 1, 1, 2, DateMonth(t, k));
    j3 := AfterMonthEnds(t, k, j2);
  }

  /** Where the year digits end, once the month digits end at `j2`. */
  lemma AfterMonthEnds(t: string, k: nat, j2: nat) returns (j3: nat)
    requires AfterMonth(t, k, j2).Some?
    ensures StartsAt(t, j2, "/") && j2 + 3 <= j3 <= j2 + 5 && j3 <= |t| && (forall x :: j2 + 1 <= x < j3 ==> IsDigit(t[x]))
    ensures k <= j3 && AfterMonth(t, k, j2) == Some(t[k..j3])
  {
    assert StartsAt(t, j2, "/") && AfterMonth(t, k, j2) == Repeat(t, j2 + 1, 2, 4, DateYear(t, k));
    j3 := RepeatEnd(t, j2 + 1, 2, 4, DateYear(t, k));
  }

  lemma DateSlashesAt(t: string, k: nat, j1: nat, j2: nat, j3: nat)
    requires k + 1 <= j1 <= k + 2 && j1 + 2 <= j2 <= j1 + 3 && j2 + 3 <= j3 <= j2 + 5 && j3 <= |t|
    requires StartsAt(t, j1, "/") && StartsAt(t, j2, "/")
    requires forall x :: k <= x < j1 ==> IsDigit(t[x])
    requires forall x :: j1 + 1 <= x < j2 ==> IsDigit(t[x])
    requires forall x :: j2 + 1 <= x < j3 ==> IsDigit(t[x])
    ensures DateSlashes(t[k..j3], j1 - k, j2 - k)
  {
    assert t[j1] == t[j1..j1 + 1][0];
    assert t[j2] == t[j2..j2 + 1][0];
  }

  /** `(?:Data):\s*(\d{1,2}\/\d{1,2}\/\d{2,4})` (case-insensitive) tried at `p`. */
  function DateAt(t: string, p: nat): Option<string>
  {
    if !MatchesAt(t, p, "Data:") then None
    else Last(p + 5, Skip(t, p + 5, IsSpace), (k: nat) => DateFrom(t, k))
  }

  /** A date match, once the label is found, has the date shape. */
  lemma DateAtShape(t: string, p: nat)
    ensures DateAt(t, p).Some? ==> DateShape(DateAt(t, p).value)
  {
    var r := DateAt(t, p);
    if r.Some? {
      var k :| p + 5 <= k <= Skip(t, p + 5, IsSpace) && DateFrom(t, k) == r;
      DateFromShape(t, k);
    }
  }

  /** A date starts and ends with a digit, so `trim` keeps it whole. */
  lemma DateTrimmed(s: string)
    requires DateShape(s)
    ensures Trim(s) == s
  {
    var a, b :| DateSlashes(s, a, b);
    assert IsDigit(s[0]) && IsDigit(s[|s| - 1]);
    TrimKeeps(s);
  }

  /** `preg_match` of an unanchored pattern: the match at the leftmost start position. */
  function Leftmost(t: string, at: nat -> Option<string>): (r: Option<string>)
    ensures r.None? <==> forall p :: 0 <= p <= |t| ==> at(p).None?
    ensures r.Some? ==> exists p :: 0 <= p <= |t| && at(p) == r && forall q :: 0 <= q < p ==> at(q).None?
  {
    First(0, |t|, at)
  }

  /** `trim($matches[1])` when the pattern matched. */
  function Captured(m: Option<string>): (r: Option<string>)
    ensures r.Some? <==> m.Some?
    ensures r.Some? ==> r.value == Trim(m.value)
  {
    match m
    case Some(s) => Some(Trim(s))
    case None => None
  }

  /** Each labelled rule as the matcher a regex engine runs at every start position. */
  function PatientRule(t: string): nat -> Option<string> { (p: nat) => PatientAt(t, p) }
  function DoctorRule(t: string): nat -> Option<string> { (p: nat) => DoctorAt(t, p) }
  function CrmRule(t: string): nat -> Option<string> { (p: nat) => CrmAt(t, p) }
  function DateRule(t: string): nat -> Option<string> { (p: nat) => DateAt(t, p) }

  /** `parsePrescription`. The source also runs a `medications` pattern over
      the text, but the medication list computed afterwards overwrites its
      result, so it has no effect and is not modelled. */
  function ParsePrescription(t: string): (d: Draft)
    ensures d.medications == ExtractMedications(t)
  {
    Draft(
      Captured(Leftmost(t, PatientRule(t))),
      Captured(Leftmost(t, DoctorRule(t))),
      Captured(Leftmost(t, CrmRule(t))),
      Captured(Leftmost(t, DateRule(t))),
      ExtractMedications(t))
  }

  /** Extraction never fails: a labelled field is absent exactly when its
      rule matches at no position of the text. */
  lemma FieldAbsentIffNoMatch(t: string)
    ensures var d := ParsePrescription(t);
      && (d.patientName.None? <==> forall p :: 0 <= p <= |t| ==> PatientRule(t)(p).None?)
      && (d.doctorName.None? <==> forall p :: 0 <= p <= |t| ==> DoctorRule(t)(p).None?)
      && (d.crm.None? <==> forall p :: 0 <= p <= |t| ==> CrmRule(t)(p).None?)
      && (d.date.None? <==> forall p :: 0 <= p <= |t| ==> DateRule(t)(p).None?)
  {
    LeftmostNone(t, PatientRule(t));
    LeftmostNone(t, DoctorRule(t));
    LeftmostNone(t, CrmRule(t));
    LeftmostNone(t, DateRule(t));
  }

  /** A patient name is trimmed and on one line; a doctor name is on one
      line; a CRM number is a non-empty run of decimal digits. */
  lemma FieldShapes(t: string)
    ensures var d := ParsePrescription(t);
      && (d.patientName.Some? ==> '\n' !in d.patientName.value && Trim(d.patientName.value) == d.patientName.value)
      && (d.doctorName.Some? ==> '\n' !in d.doctorName.value)
      && (d.crm.Some? ==> d.crm.value != [] && AllDigits(d.crm.value))
  {
    var patient := Leftmost(t, PatientRule(t));
    var crm := Leftmost(t, CrmRule(t));
    if crm.Some? {
      DigitsTrimmed(crm.value);
    }
    if patient.Some? {
      TrimIdempotent(patient.value);
    }
  }

  /** An extracted date is the text `d/m/y` with one or two day digits,
      one or two month digits and two to four year digits. */
  lemma DateShaped(t: string)
    ensures var d := ParsePrescription(t); d.date.Some? ==> DateShape(d.date.value)
  {
    var m := Leftmost(t, DateRule(t));
    if m.Some? {
      var p :| 0 <= p <= |t| && DateRule(t)(p) == m;
      DateAtShape(t, p);
      DateTrimmed(m.value);
    }
  }

  lemma LeftmostNone(t: string, at: nat -> Option<string>)
    ensures Captured(Leftmost(t, at)).None? <==> forall p :: 0 <= p <= |t| ==> at(p).None?
  {
  }

  /** A run of digits has nothing for `trim` to remove. */
  lemma DigitsTrimmed(s: string)
    requires AllDigits(s)
    ensures Trim(s) == s
  {
    TrimKeeps(s);
  }

  /*---------------------------------------------------------------------------
   * Medication lines
   *-------------------------------------------------------------------------*/

  /** `[-–]`: a hyphen or an en dash. */
  predicate IsDash(c: char) {
    c == '-' || c == '\U{2013}'
  }

  /** `s` splits at `d` into digits then white space, followed by a two-letter unit. */
  predicate DosageSplit(s: string, d: nat) {
    && 1 <= d <= |s| - 2
    && (forall i :: 0 <= i < d ==> IsDigit(s[i]))
    && (forall i :: d <= i < |s| - 2 ==> IsSpace(s[i]))
  }

  /** `\d+\s*mg` or `\d+\s*ml`, the whole string, lower-case units only. */
  ghost predicate DosageShape(s: string) {
    && |s| >= 3 && (s[|s| - 2..] == "mg" || s[|s| - 2..] == "ml")
    && exists d :: DosageSplit(s, d)
  }

  /** `\d+\s*mg|\d+\s*ml` at `i`: where the dosage ends. A shorter digit run
      would leave a digit where `\s` or `m` is needed, and a shorter space run
      a space where `m` is needed, so only the longest runs can match, and
      both branches see the same runs. */
  function DosageEnd(t: string, i: nat): (r: Option<nat>)
    ensures r.Some? ==> i < r.value <= |t| && DosageShape(t[i..r.value])
  {
    if i > |t| then None
    else
      var d := Skip(t, i, IsDigit);
      var w := Skip(t, d, IsSpace);
      if d == i then None
      else if StartsAt(t, w, "mg") || StartsAt(t, w, "ml") then
        assert DosageSplit(t[i..w + 2], d - i);
        Some(w + 2)
      else None
  }

  /** `(.+)` at `k`, greedy: the rest of the line, at least one character. */
  function RestOfLine(t: string, k: nat): (r: Option<string>)
    ensures r.Some? ==> r.value != [] && '\n' !in r.value
  {
    if k < |t| && t[k] != '\n' then Some(t[k..LineEnd(t, k)]) else None
  }

  function RestOfLineRule(t: string): nat -> Option<string> { (k: nat) => RestOfLine(t, k) }

  /** `\s*(.+)` from `s`, both greedy: the frequency, trimmed. The space run
      gives characters back only when nothing is left for `.+` on the line. */
  function FrequencyFrom(t: string, s: nat): (r: Option<string>)
  {
    if s > |t| then None
    else
      match Last(s, Skip(t, s, IsSpace), RestOfLineRule(t))
      case None => None
      case Some(f) => Some(Trim(f))
  }

  /** `\s*[-–]\s*(.+)` after the dosage ends at `u`. */
  function AfterDosage(t: string, u: nat): (r: Option<string>)
  {
    if u > |t| then None
    else
      var e := Skip(t, u, IsSpace);
      if e == |t| || !IsDash(t[e]) then None else FrequencyFrom(t, e + 1)
  }

  /** `\s*(\d+\s*mg|\d+\s*ml)\s*[-–]\s*(.+)` after the first dash: the
      dosage and the frequency, both trimmed. */
  function AfterFirstDash(t: string, s: nat): (r: Option<(string, string)>)
    ensures r.Some? ==> DosageShape(r.value.0)
  {
    if s > |t| then None
    else
      var e := Skip(t, s, IsSpace);
      var u := DosageEnd(t, e);
      if u.None? then None
      else
        var frequency := AfterDosage(t, u.value);
        if frequency.None? then None
        else
          DosageTrimmed(t[e..u.value]);
          Some((Trim(t[e..u.value]), frequency.value))
  }

  /** Everything after the lazy name group `(.+?)` that started at `p` and
      ends at `a`: `\s*[-–]` and then the rest. */
  function MedicationRest(t: string, p: nat, a: nat): (r: Option<Medication>)
    ensures r.Some? ==> DosageShape(r.value.dosage)
  {
    if !(p < a <= |t|) then None
    else
      var tail := AfterName(t, Skip(t, a, IsSpace));
      if tail.None? then None else Some(Medication(Trim(t[p..a]), tail.value.0, tail.value.1))
  }

  /** `[-–]\s*(\d+\s*mg|\d+\s*ml)\s*[-–]\s*(.+)` from `e`, where the white space after the name ends. */
  function AfterName(t: string, e: nat): (r: Option<(string, string)>)
    ensures r.Some? ==> DosageShape(r.value.0)
  {
    if e >= |t| || !IsDash(t[e]) then None else AfterFirstDash(t, e + 1)
  }

  function NameEndRule(t: string, p: nat): nat -> Option<Medication> { (a: nat) => MedicationRest(t, p, a) }

  /** A dosage starts with a digit and ends with a letter, so `trim` keeps it whole. */
  lemma DosageTrimmed(s: string)
    requires DosageShape(s)
    ensures Trim(s) == s
  {
    var d :| DosageSplit(s, d);
    assert IsDigit(s[0]);
    assert s[|s| - 1] == s[|s| - 2..][1];
    TrimKeeps(s);
  }

  /** The medication pattern tried at start position `p`. */
  function MedicationAt(t: string, p: nat): (r: Option<Medication>)
    ensures r.Some? ==> DosageShape(r.value.dosage)
  {
    if p >= |t| then None
    else First(p + 1, LineEnd(t, p), NameEndRule(t, p))
  }

  function MedicationRule(t: string): nat -> Option<Medication> { (p: nat) => MedicationAt(t, p) }

  /** `parseMedicationLine`: `name - <digits>mg|ml - frequency`, or null. */
  function ParseMedicationLine(line: string): (r: Option<Medication>)
    ensures r.Some? ==> DosageShape(r.value.dosage)
  {
    First(0, |line|, MedicationRule(line))
  }

  /** The layout the medication pattern is written for: `name - dosage - frequency`. */
  function MedicationLine(m: Medication): string {
    m.name + " - " + m.dosage + " - " + m.frequency
  }

  /** Non-empty, on one line, and with ends that neither `\s` nor `trim` treats as white space. */
  predicate Clean(s: string) {
    && s != [] && '\n' !in s
    && !IsSpace(s[0]) && !IsTrimmable(s[0])
    && !IsSpace(s[|s| - 1]) && !IsTrimmable(s[|s| - 1])
  }

  /** A medication the line layout can carry unambiguously: the name has no
      dash of its own, the dosage has the shape the pattern demands. */
  ghost predicate Writable(m: Medication) {
    && Clean(m.name) && (forall i :: 0 <= i < |m.name| ==> !IsDash(m.name[i]))
    && DosageShape(m.dosage) && '\n' !in m.dosage
    && Clean(m.frequency)
  }

  /** Parsing a written medication line gives back the medication. */
  lemma ParseMedicationLineRoundTrip(m: Medication)
    requires Writable(m)
    ensures ParseMedicationLine(MedicationLine(m)) == Some(m)
  {
    var t := MedicationLine(m);
    MedicationAtStart(m);
    FirstAt(0, |t|, MedicationRule(t), 0);
  }

  /** Tried from the first character, the pattern matches the whole line. */
  lemma MedicationAtStart(m: Medication)
    requires Writable(m)
    ensures MedicationAt(MedicationLine(m), 0) == Some(m)
  {
    var t := MedicationLine(m);
    var n := |m.name|;
    SingleLine(m);
    forall a | 1 <= a < n
      ensures NameEndRule(t, 0)(a).None?
    {
      NoSplitInsideName(m, a);
    }
    SplitAfterName(m);
    FirstAt(1, |t|, NameEndRule(t, 0), n);
  }

  /** A written medication line holds no line feed. */
  lemma SingleLine(m: Medication)
    requires Writable(m)
    ensures LineEnd(MedicationLine(m), 0) == |MedicationLine(m)|
  {
    assert '\n' !in MedicationLine(m);
  }

  /** The layout's own example line. */
  lemma AmoxicillinExample()
    ensures ParseMedicationLine("Amoxicilina - 500mg - 8/8h") == Some(Medication("Amoxicilina", "500mg", "8/8h"))
  {
    var m := Medication("Amoxicilina", "500mg", "8/8h");
    assert DosageSplit(m.dosage, 3);
    assert MedicationLine(m) == "Amoxicilina - 500mg - 8/8h";
    ParseMedicationLineRoundTrip(m);
  }

  /** The lazy name group cannot stop inside the name: no dash follows the white space there. */
  lemma NoSplitInsideName(m: Medication, a: nat)
    requires Writable(m) && 1 <= a < |m.name|
    ensures MedicationRest(MedicationLine(m), 0, a).None?
  {
    var t := MedicationLine(m);
    var n := |m.name|;
    assert forall i :: 0 <= i < n ==> t[i] == m.name[i];
    var e := Skip(t, a, IsSpace);
    assert e < n;
  }

  /** ... and stopping right after the name, the rest of the pattern reads the line back. */
  lemma SplitAfterName(m: Medication)
    requires Writable(m)
    ensures MedicationRest(MedicationLine(m), 0, |m.name|) == Some(m)
  {
    var t := MedicationLine(m);
    var n := |m.name|;
    LineLayout(m);
    assert Skip(t, n, IsSpace) == n + 1 by {
      SkipTo(t, n, IsSpace, n + 1);
    }
    assert AfterName(t, n + 1) == Some((m.dosage, m.frequency)) by {
      ReadDosageAndFrequency(t, n + 2, m.dosage, m.frequency);
    }
    assert Trim(t[0..n]) == m.name by {
      TrimKeeps(m.name);
    }
  }

  /** Where each part of a written medication line sits. */
  lemma LineLayout(m: Medication)
    ensures var t, n, ds := MedicationLine(m), |m.name|, |m.dosage|;
      && |t| == n + 6 + ds + |m.frequency|
      && t[0..n] == m.name
      && t[n] == ' ' && t[n + 1] == '-' && t[n + 2] == ' '
      && t[n + 3..n + 3 + ds] == m.dosage
      && t[n + 3 + ds] == ' ' && t[n + 4 + ds] == '-' && t[n + 5 + ds] == ' '
      && t[n + 6 + ds..] == m.frequency
  {
    var n, ds := |m.name|, |m.dosage|;
    var t1 := m.name + " - ";
    var t2 := t1 + m.dosage;
    var t3 := t2 + " - ";
    var t := t3 + m.frequency;
    assert t == MedicationLine(m);
    assert t[0..n] == t1[0..n] == m.name;
    assert t[n + 3..n + 3 + ds] == t2[n + 3..] == m.dosage;
    assert t[n + 6 + ds..] == m.frequency;
  }

  /** ` dosage - frequency` written at `s` is read back by the pattern's tail. */
  lemma ReadDosageAndFrequency(t: string, s: nat, dosage: string, frequency: string)
    requires DosageShape(dosage) && Clean(frequency)
    requires s + 4 + |dosage| + |frequency| == |t|
    requires t[s] == ' ' && t[s + 1..s + 1 + |dosage|] == dosage
    requires t[s + 1 + |dosage|] == ' ' && t[s + 2 + |dosage|] == '-' && t[s + 3 + |dosage|] == ' '
    requires t[s + 4 + |dosage|..] == frequency
    ensures AfterFirstDash(t, s) == Some((dosage, frequency))
  {
    var u := s + 1 + |dosage|;
    SpaceBeforeDosage(t, s, dosage);
    DosageEndAt(t, s + 1, dosage);
    ReadDashFrequency(t, u, frequency);
    DosageTrimmed(dosage);
  }

  /** The single space before a written dosage is all the white space skipped. */
  lemma SpaceBeforeDosage(t: string, s: nat, dosage: string)
    requires DosageShape(dosage)
    requires s + 1 + |dosage| <= |t| && t[s] == ' ' && t[s + 1..s + 1 + |dosage|] == dosage
    ensures Skip(t, s, IsSpace) == s + 1
  {
    var d :| DosageSplit(dosage, d);
    assert t[s + 1] == dosage[0];
    SkipTo(t, s, IsSpace, s + 1);
  }

  /** ` - frequency` at the end of a line is read back as the frequency. */
  lemma ReadDashFrequency(t: string, u: nat, frequency: string)
    requires Clean(frequency)
    requires u + 3 + |frequency| == |t| && t[u] == ' ' && t[u + 1] == '-' && t[u + 2] == ' '
    requires t[u + 3..] == frequency
    ensures AfterDosage(t, u) == Some(frequency)
  {
    SkipTo(t, u, IsSpace, u + 1);
    ReadFrequency(t, u + 2, frequency);
  }

  /** ` frequency` at the end of a line is read back whole. */
  lemma ReadFrequency(t: string, s: nat, frequency: string)
    requires Clean(frequency)
    requires s + 1 + |frequency| == |t| && t[s] == ' ' && t[s + 1..] == frequency
    ensures FrequencyFrom(t, s) == Some(frequency)
  {
    assert t[s + 1] == frequency[0];
    SkipTo(t, s, IsSpace, s + 1);
    var j := LineEnd(t, s + 1);
    assert t[s + 1..j] == frequency;
    assert RestOfLineRule(t)(s + 1) == Some(frequency);
    LastAt(s, s + 1, RestOfLineRule(t), s + 1);
    TrimKeeps(frequency);
  }

  /** A dosage written at position `i` is read back whole. */
  lemma DosageEndAt(t: string, i: nat, dosage: string)
    requires DosageShape(dosage)
    requires i + |dosage| <= |t| && t[i..i + |dosage|] == dosage
    ensures DosageEnd(t, i) == Some(i + |dosage|)
  {
    var ds := |dosage|;
    var dd :| DosageSplit(dosage, dd);
    assert forall k :: i <= k < i + ds ==> t[k] == dosage[k - i];
    assert dosage[ds - 2] == 'm' by {
      assert dosage[ds - 2] == dosage[ds - 2..][0];
    }
    SkipTo(t, i, IsDigit, i + dd);
    SkipTo(t, i + dd, IsSpace, i + ds - 2);
    assert t[i + ds - 2..i + ds] == dosage[ds - 2..];
  }

  /** In `t`, after position `lo`: a dash, then `dosage`, then another dash
      with at least one character after it. */
  ghost predicate DashedDosage(t: string, lo: nat, dosage: string) {
    exists x, b, c, d :: lo < x < b < c <= d < |t| - 1 && IsDash(t[x]) && t[b..c] == dosage && IsDash(t[d])
  }

  /** A parsed medication is read from a line shaped `name - dosage - rest`:
      its dosage has the `\d+\s*mg|ml` shape and sits between two dashes,
      the first of which has a name before it. */
  lemma ParsedLineShape(line: string)
    ensures var r := ParseMedicationLine(line);
      r.Some? ==> DosageShape(r.value.dosage) && DashedDosage(line, 0, r.value.dosage)
  {
    var r := ParseMedicationLine(line);
    if r.Some? {
      var p :| 0 <= p <= |line| && MedicationRule(line)(p) == r;
      MedicationAtShape(line, p);
    }
  }

  /** ... so a line without that shape parses to nothing. */
  lemma UnshapedLineFails(line: string)
    requires forall x, b, c, d :: 0 < x < b < c <= d < |line| - 1 && IsDash(line[x]) && IsDash(line[d]) ==> !DosageShape(line[b..c])
    ensures ParseMedicationLine(line) == None
  {
    ParsedLineShape(line);
  }

  lemma MedicationAtShape(t: string, p: nat)
    ensures var r := MedicationAt(t, p); r.Some? ==> DashedDosage(t, p, r.value.dosage)
  {
    var r := MedicationAt(t, p);
    if r.Some? {
      var a :| p + 1 <= a <= LineEnd(t, p) && NameEndRule(t, p)(a) == r;
      MedicationRestShape(t, p, a);
    }
  }

  lemma MedicationRestShape(t: string, p: nat, a: nat)
    ensures var r := MedicationRest(t, p, a); r.Some? ==> DashedDosage(t, p, r.value.dosage)
  {
    var r := MedicationRest(t, p, a);
    if r.Some? {
      var x := Skip(t, a, IsSpace);
      var tail := AfterName(t, x);
      assert tail.Some? && r.value.dosage == tail.value.0;
      AfterNameShape(t, x);
      DashedFromTail(t, p, x, tail.value.0);
    }
  }

  /** A dash at `e`, then `dosage`, then another dash with something after it. */
  ghost predicate DashedTail(t: string, e: nat, dosage: string) {
    e < |t| && IsDash(t[e]) && exists b, c, d :: e < b < c <= d < |t| - 1 && t[b..c] == dosage && IsDash(t[d])
  }

  lemma DashedFromTail(t: string, lo: nat, e: nat, dosage: string)
    requires lo < e && DashedTail(t, e, dosage)
    ensures DashedDosage(t, lo, dosage)
  {
    var b, c, d :| e < b < c <= d < |t| - 1 && t[b..c] == dosage && IsDash(t[d]);
    assert lo < e < b < c <= d < |t| - 1 && IsDash(t[e]) && t[b..c] == dosage && IsDash(t[d]);
  }

  lemma AfterNameShape(t: string, e: nat)
    ensures var r := AfterName(t, e); r.Some? ==> DashedTail(t, e, r.value.0)
  {
    var r := AfterName(t, e);
    if r.Some? {
      assert e < |t| && IsDash(t[e]);
      assert r == AfterFirstDash(t, e + 1);
      AfterFirstDashShape(t, e + 1);
      var b := Skip(t, e + 1, IsSpace);
      var c := DosageEnd(t, b).value;
      var d := Skip(t, c, IsSpace);
      DashedTailAt(t, e, r.value.0, b, c, d);
    }
  }

  lemma DashedTailAt(t: string, e: nat, dosage: string, b: nat, c: nat, d: nat)
    requires e < b < c <= d < |t| - 1 && IsDash(t[e]) && t[b..c] == dosage && IsDash(t[d])
    ensures DashedTail(t, e, dosage)
  {
  }

  /** Where the dosage and the second dash lie when the tail of the pattern matches. */
  lemma AfterFirstDashShape(t: string, s: nat)
    ensures var r := AfterFirstDash(t, s);
      r.Some? ==>
        && s <= |t| && DosageEnd(t, Skip(t, s, IsSpace)).Some?
        && var b := Skip(t, s, IsSpace); var c := DosageEnd(t, b).value;
           && t[b..c] == r.value.0
           && Skip(t, c, IsSpace) < |t| - 1 && IsDash(t[Skip(t, c, IsSpace)])
  {
    var r := AfterFirstDash(t, s);
    if r.Some? {
      var e := Skip(t, s, IsSpace);
      var u := DosageEnd(t, e).value;
      DosageTrimmed(t[e..u]);
      AfterDosageShape(t, u);
    }
  }

  lemma AfterDosageShape(t: string, u: nat)
    ensures AfterDosage(t, u).Some? ==> u <= |t| && Skip(t, u, IsSpace) < |t| - 1 && IsDash(t[Skip(t, u, IsSpace)])
  {
    if AfterDosage(t, u).Some? {
      var e := Skip(t, u, IsSpace);
      var f := Last(e + 1, Skip(t, e + 1, IsSpace), RestOfLineRule(t));
      assert f.Some?;
      var k :| e + 1 <= k <= Skip(t, e + 1, IsSpace) && RestOfLineRule(t)(k) == f;
    }
  }

  /*---------------------------------------------------------------------------
   * The medication section
   *-------------------------------------------------------------------------*/

  /** `/(?:Medicamento|Medicação|Prescrição)/i`: the line mentions a heading
      word anywhere. Only ASCII letters fold, so `MEDICAÇÃO` is no heading. */
  predicate IsHeading(line: string) {
    ContainsAt(line, "Medicamento")
    || ContainsAt(line, "Medica\U{00E7}\U{00E3}o")
    || ContainsAt(line, "Prescri\U{00E7}\U{00E3}o")
  }

  /** Heading words match in any ASCII letter case, anywhere in the line;
      an upper-case `Ç` or `Ã` does not match its lower-case form, so
      `PRESCRIÇÃO` is no heading. */
  lemma HeadingExamples()
    ensures IsHeading("MEDICAMENTOS:")
    ensures IsHeading("Uso: Medica\U{00E7}\U{00E3}o")
    ensures !IsHeading("PRESCRI\U{00C7}\U{00C3}O")
  {
    var t1 := "MEDICAMENTOS:";
    assert MatchesAt(t1, 0, "Medicamento") by {
      assert Lower(t1[0..11]) == "medicamento";
      assert Lower("Medicamento") == "medicamento";
    }
    var t2 := "Uso: Medica\U{00E7}\U{00E3}o";
    assert MatchesAt(t2, 5, "Medica\U{00E7}\U{00E3}o") by {
      assert t2 == "Uso: " + "Medica\U{00E7}\U{00E3}o";
      assert t2[5..14] == "Medica\U{00E7}\U{00E3}o";
    }
    var t3 := "PRESCRI\U{00C7}\U{00C3}O";
    forall i | 0 <= i <= |t3|
      ensures !MatchesAt(t3, i, "Medicamento")
      ensures !MatchesAt(t3, i, "Medica\U{00E7}\U{00E3}o")
      ensures !MatchesAt(t3, i, "Prescri\U{00E7}\U{00E3}o")
    {
      if i + 9 <= |t3| {
        assert t3[i..i + 9][0] == t3[i];
        assert i == 0 || i == 1;
        assert ToLower(t3[i]) != 'm';
      }
      if i == 0 {
        assert Lower(t3[0..10])[7] != Lower("Prescri\U{00E7}\U{00E3}o")[7];
      }
    }
  }

  /** The `foreach` of `extractMedications`: every heading line turns the
      section on and is skipped, even after the first; once in the section,
      each line that is truthy after `trim` is parsed and kept when it parses. */
  function ScanLines(lines: seq<string>, inSection: bool): (r: seq<Medication>)
    ensures |r| <= |lines|
  {
    if lines == [] then []
    else if IsHeading(lines[0]) then ScanLines(lines[1..], true)
    else
      var here := if inSection && !IsFalsy(Trim(lines[0])) then ParseMedicationLine(lines[0]).ToSeq() else [];
      here + ScanLines(lines[1..], inSection)
  }

  /** `extractMedications`. */
  function ExtractMedications(t: string): (r: seq<Medication>)
    ensures |r| <= |Lines(t)|
    ensures forall m :: m in r ==> DosageShape(m.dosage) && Trim(m.dosage) == m.dosage
  {
    ScannedDosagesShaped(Lines(t), false);
    forall m | m in ScanLines(Lines(t), false)
      ensures Trim(m.dosage) == m.dosage
    {
      DosageTrimmed(m.dosage);
    }
    ScanLines(Lines(t), false)
  }

  /** What a line after the first heading contributes. */
  function MedicationFromLine(line: string): Option<Medication>
  {
    if IsHeading(line) || IsFalsy(Trim(line)) then None else ParseMedicationLine(line)
  }

  /** A line that may carry a medication: neither a heading nor blank. */
  function Candidate(line: string): Option<string>
  {
    if IsHeading(line) || IsFalsy(Trim(line)) then None else Some(line)
  }

  /** The index of the first heading line at or after `i`, if any. */
  function FirstHeading(lines: seq<string>, i: nat := 0): (r: Option<nat>)
    ensures r.Some? ==>
      && i <= r.value < |lines| && IsHeading(lines[r.value])
      && forall k :: i <= k < r.value ==> !IsHeading(lines[k])
    ensures r.None? ==> forall k :: i <= k < |lines| ==> !IsHeading(lines[k])
    decreases |lines| - i
  {
    if i >= |lines| then None
    else if IsHeading(lines[i]) then Some(i)
    else FirstHeading(lines, i + 1)
  }

  /** Inside the section, the scan is a plain filter over the lines. */
  lemma {:induction false} ScanInSection(lines: seq<string>)
    ensures ScanLines(lines, true) == FilterMap(lines, MedicationFromLine)
    decreases |lines|
  {
    if lines != [] {
      ScanInSection(lines[1..]);
    }
  }

  /** Before the first heading nothing is parsed; the heading line itself is skipped. */
  lemma {:induction false} ScanBeforeHeading(lines: seq<string>)
    ensures FirstHeading(lines).None? ==> ScanLines(lines, false) == []
    ensures FirstHeading(lines).Some? ==>
      ScanLines(lines, false) == ScanLines(lines[FirstHeading(lines).value + 1..], true)
    decreases |lines|
  {
    if lines != [] && !IsHeading(lines[0]) {
      ScanBeforeHeading(lines[1..]);
      var h, h' := FirstHeading(lines), FirstHeading(lines[1..]);
      if h'.Some? {
        assert h.Some? && h.value == h'.value + 1 by {
          assert forall i :: 0 < i <= h'.value ==> lines[i] == lines[1..][i - 1];
        }
        assert lines[h.value + 1..] == lines[1..][h'.value + 1..];
      } else {
        assert h.None? by {
          assert forall i :: 0 < i < |lines| ==> lines[i] == lines[1..][i - 1];
        }
      }
    }
  }

  /** Text with no heading line yields no medications; otherwise the
      medications are exactly what the lines after the first heading give,
      one line at a time, in order. */
  lemma MedicationsAfterFirstHeading(t: string)
    ensures var ls := Lines(t); FirstHeading(ls).None? ==> ExtractMedications(t) == []
    ensures var ls := Lines(t); FirstHeading(ls).Some? ==>
      ExtractMedications(t) == FilterMap(ls[FirstHeading(ls).value + 1..], MedicationFromLine)
  {
    var ls := Lines(t);
    ScanBeforeHeading(ls);
    if FirstHeading(ls).Some? {
      ScanInSection(ls[FirstHeading(ls).value + 1..]);
    }
  }

  /** Each medication comes from its own line after the first heading, a
      line that is neither a heading nor blank, and the lines are in text
      order; so there are no more medications than such lines. */
  lemma MedicationOrigins(t: string)
    requires FirstHeading(Lines(t)).Some?
    ensures var ls := Lines(t); var h := FirstHeading(ls).value;
      var meds := ExtractMedications(t); var o := Kept(ls[h + 1..], MedicationFromLine);
      && |o| == |meds|
      && (forall j :: 0 <= j < |o| ==>
            var i := h + 1 + o[j];
            i < |ls| && !IsHeading(ls[i]) && !IsFalsy(Trim(ls[i])) && ParseMedicationLine(ls[i]) == Some(meds[j]))
      && (forall j, k :: 0 <= j < k < |o| ==> o[j] < o[k])
      && |meds| <= |FilterMap(ls[h + 1..], Candidate)|
  {
    var ls := Lines(t);
    var h := FirstHeading(ls).value;
    MedicationsAfterFirstHeading(t);
    var o := Kept(ls[h + 1..], MedicationFromLine);
    forall j | 0 <= j < |o|
      ensures var i := h + 1 + o[j];
        i < |ls| && !IsHeading(ls[i]) && !IsFalsy(Trim(ls[i])) && ParseMedicationLine(ls[i]) == Some(ExtractMedications(t)[j])
    {
      assert ls[h + 1..][o[j]] == ls[h + 1 + o[j]];
    }
    FilterMapFewer(ls[h + 1..], MedicationFromLine, Candidate);
  }

  lemma {:induction false} ScannedDosagesShaped(lines: seq<string>, inSection: bool)
    ensures forall m :: m in ScanLines(lines, inSection) ==> DosageShape(m.dosage)
    decreases |lines|
  {
    if lines != [] {
      ScannedDosagesShaped(lines[1..], true);
      ScannedDosagesShaped(lines[1..], inSection);
    }
  }

  /*---------------------------------------------------------------------------
   * Handwriting heuristic and the extraction result
   *-------------------------------------------------------------------------*/

  /** `detectHandwriting`: the recogniser's confidence alone decides. */
  function IsHandwritten(confidence: real): (r: bool)
    ensures r ==> confidence < 0.7
    ensures confidence == 0.7 ==> !r
  {
    confidence < HandwritingThreshold
  }

  /** A more confident reading is never more handwritten. */
  lemma HandwritingMonotone(c1: real, c2: real)
    requires c1 <= c2
    ensures IsHandwritten(c2) ==> IsHandwritten(c1)
  {
  }

  /** `extractText` once the recogniser has produced its text and confidence. */
  function ExtractText(rawText: string, recognizerConfidence: real): (r: OcrResult)
    ensures r.draft == ParsePrescription(rawText)
    ensures r.confidence == recognizerConfidence
    ensures r.isHandwritten <==> recognizerConfidence < 0.7
  {
    OcrResult(rawText, ParsePrescription(rawText), recognizerConfidence, IsHandwritten(recognizerConfidence))
  }
}
