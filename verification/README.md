# Prescription intake: a Dafny model

This project models the core of a pharmacy's prescription intake service. A
customer sends a photo of a prescription over WhatsApp. The service reads the
text, extracts the patient, the doctor, the CRM (the doctor's registration
number), the date and the medication lines, and validates the result. It then
either queues the prescription for a pharmacist to review or sends it to the
ERP (the pharmacy's back office), which produces a quote and a payment link
that are messaged back to the customer.

The model is pure: every operation is a function from inputs to outputs, and
the outside world enters as parameters. Those parameters are the recogniser's
text and confidence, the statistics script's verdict, the ERP, payment and
messaging calls, the id generator, the clock and the webhook signature
verdict.

| file | module | what it holds |
|---|---|---|
| `wrappers.dfy` | `Wrappers` | `Option` and `Result` |
| `strings.dfy` | `Strings` | PHP `trim`, `strtolower`, `empty`, `explode("\n", …)`, and PCRE's `\d` and `\s` |
| `search.dfy` | `Search` | backtracking order (`First` for lazy/leftmost, `Last` for greedy), and `FilterMap` with the origins of what it keeps |
| `ocr.dfy` | `Ocr` | `parsePrescription`, `extractMedications`, `parseMedicationLine`, `detectHandwriting`, and `extractText` after recognition |
| `validation.dfy` | `Validation` | `validate`, `basicValidation`, `requiresManualReview` |
| `review_queue.dfy` | `ReviewQueue` | `ValidationQueueService` (`add`, `getPending`, `approve`) and `queueForReview` |
| `controller.dfy` | `Controller` | `processPrescription` and `requestManualValidation` |
| `whatsapp.dfy` | `WhatsApp` | `formatPhoneNumber`, `handleTextCommand`, `isImageMessage` and the order of `handleWebhook` |

## How the regular expressions are modelled

Each `preg_match` is a hand-written matcher. It tries candidates in the order
PCRE's backtracking engine does:
- start positions left to right;
- lazy quantifiers shortest first;
- greedy quantifiers longest first.

Where a greedy run is followed by a token that no character of the run can
start, the longest run is taken directly. Backing off could never succeed
there, and a comment at each such place says so.

The character classes follow PCRE without the `u` flag. `\s` is space, tab,
line feed, vertical tab, form feed and carriage return. `\d` is `0`–`9`. The
`i` flag folds ASCII letters only. PHP's `trim` strips a different set: space,
tab, line feed, carriage return, NUL and vertical tab. PHP's `empty` on a
string holds for `""` and `"0"`.

## Behaviour kept as written

- **Fallback review flag.** `basicValidation` flags a record for review on
  errors or warnings only; the 0.85 threshold plays no part in it
  (`Validation.FallbackIgnoresThreshold`). The route still queues any record
  below 0.85, so the flag decides nothing there.
- **The route ignores the flag.** `processPrescription` reads only the
  confidence. A record flagged for review with confidence 0.85 or more goes
  to the ERP (`Controller.ReviewFlagIgnored`, `Controller.FlaggedButConfidentExists`).
- **Approval clears every copy.** `approve` removes the id with `lrem(…, 0, id)`.
  That removes every copy of the id from the pending list, not just one
  (`ReviewQueue.ApproveRemovesEveryCopy`).
- **Medication units are case-sensitive.** The medication-line pattern has no
  `i` flag, so only `mg` and `ml` in lower case form a dosage. The fallback's
  dosage check does have the flag and also accepts `g`.
- **Only the help command is answered.** The `status`, `cancelar` and default
  branches of `handleTextCommand` call `sendStatusUpdate`,
  `cancelPendingOrders` and `sendDefaultMessage`. The class declares none of
  them, so PHP raises an `Error` ("Call to undefined method …"). The model
  returns a failure with that message (`WhatsApp.OnlyHelpIsAnswered`).

## Model

| member | source | states |
|---|---|---|
| Ocr.ExtractText | src/services/ocr/OCRService.php:27-44 | once recognition has produced text and a confidence, the draft is that text's parse, the confidence is the recogniser's, and the document counts as handwritten exactly when the confidence is below 0.7 |
| Ocr.IsHandwritten | src/services/ocr/OCRService.php:109-114 | a document counts as handwritten only below 0.7, and a confidence of exactly 0.7 is not handwritten |
| Ocr.HandwritingMonotone | src/services/ocr/OCRService.php:113 | a more confident reading is never more handwritten |
| Ocr.ParsePrescription | src/services/ocr/OCRService.php:46-67 | the medication list is always the line scan's result; the `medications` pattern's capture is overwritten |
| Ocr.FieldAbsentIffNoMatch | src/services/ocr/OCRService.php:56-61 | a labelled field is missing from the draft exactly when its pattern matches at no position of the text |
| Ocr.LeftmostNone | src/services/ocr/OCRService.php:58-59 | an unanchored match captures nothing exactly when the pattern fails at every start position |
| Ocr.Captured | src/services/ocr/OCRService.php:58-59 | a field is set exactly when its pattern matched, and holds the trimmed capture |
| Ocr.FieldShapes | src/services/ocr/OCRService.php:49-59 | a patient name is trimmed and on one line, a doctor name is on one line, and a CRM is a non-empty run of digits |
| Ocr.UpToLineEnd | src/services/ocr/OCRService.php:49 | the lazy capture before a line end is non-empty and holds no line feed |
| Ocr.PatientAt | src/services/ocr/OCRService.php:49 | a patient capture is non-empty and holds no line feed |
| Ocr.UpToCrm | src/services/ocr/OCRService.php:50 | the lazy capture before a line end or `CRM` is non-empty and holds no line feed |
| Ocr.DoctorAt | src/services/ocr/OCRService.php:50 | a doctor capture is non-empty and holds no line feed |
| Ocr.DigitsFrom | src/services/ocr/OCRService.php:51 | the greedy digit capture is a non-empty run of digits |
| Ocr.CrmAt | src/services/ocr/OCRService.php:51 | a CRM capture is a non-empty run of digits |
| Ocr.DigitsTrimmed | src/services/ocr/OCRService.php:51-59 | `trim` leaves a run of digits unchanged, so a CRM is stored as matched |
| Ocr.ParseMedicationLine | src/services/ocr/OCRService.php:95-107 | a parsed dosage is digits, optional white space, then `mg` or `ml` |
| Ocr.ParseMedicationLineRoundTrip | src/services/ocr/OCRService.php:97-103 | a medication written as `name - dosage - frequency` is parsed back to itself, provided its parts are clean and its name has no dash |
| Ocr.AmoxicillinExample | src/services/ocr/OCRService.php:97-103 | `Amoxicilina - 500mg - 8/8h` parses to name `Amoxicilina`, dosage `500mg`, frequency `8/8h` |
| Ocr.MedicationAtStart | src/services/ocr/OCRService.php:98 | on a written medication line, the match starting at the first character covers the whole line and gives back the medication |
| Ocr.NoSplitInsideName | src/services/ocr/OCRService.php:98 | the lazy name group cannot stop inside a dash-free name |
| Ocr.SplitAfterName | src/services/ocr/OCRService.php:98-103 | stopping the name group right after the name reads back the dosage and the frequency |
| Ocr.DosageEnd | src/services/ocr/OCRService.php:98 | the dosage alternative, when it matches, spans a non-empty `\d+\s*mg` or `\d+\s*ml` |
| Ocr.DosageTrimmed | src/services/ocr/OCRService.php:101 | `trim` never shortens a matched dosage |
| Ocr.MedicationAt | src/services/ocr/OCRService.php:98 | a match at any start position has a well-formed dosage |
| Ocr.ParsedLineShape | src/services/ocr/OCRService.php:98 | a parsed line has a dash with something before it, then the dosage, then a second dash with something after it |
| Ocr.UnshapedLineFails | src/services/ocr/OCRService.php:98-106 | a line with no well-formed dosage between two such dashes parses to null |
| Ocr.FirstHeading | src/services/ocr/OCRService.php:77-81 | finds the first line that mentions a section heading, or reports that none does |
| Ocr.ScanInSection | src/services/ocr/OCRService.php:77-90 | once in the medication section, the scan keeps, in order, the parse of every line that is neither a heading nor blank |
| Ocr.ScanBeforeHeading | src/services/ocr/OCRService.php:77-81 | lines before the first heading contribute nothing, and the heading line itself is skipped |
| Ocr.MedicationsAfterFirstHeading | src/services/ocr/OCRService.php:69-93 | text without a heading yields no medications; otherwise the medications are the line-by-line parses after the first heading |
| Ocr.MedicationOrigins | src/services/ocr/OCRService.php:83-88 | each medication comes from its own non-heading, non-blank line after the first heading, in text order, so there are no more medications than such lines |
| Ocr.ExtractMedications | src/services/ocr/OCRService.php:69-93 | there is at most one medication per line of the text, and every extracted medication has a `\d+\s*mg` or `\d+\s*ml` dosage that `trim` leaves unchanged |
| Ocr.ScanLines | src/services/ocr/OCRService.php:77-90 | the scan keeps at most one medication per line |
| Ocr.HeadingExamples | src/services/ocr/OCRService.php:78 | the heading pattern ignores case for ASCII letters only: `MEDICAMENTOS:` and `Uso: Medicação` are headings, `PRESCRIÇÃO` is not |
| Ocr.Leftmost | src/services/ocr/OCRService.php:58 | an unanchored match fails exactly when every start position fails; otherwise it is the match at the first start position that succeeds |
| Ocr.Repeat | src/services/ocr/OCRService.php:52 | a bounded digit run `\d{min,max}` that lets the rest of the pattern succeed covers between `min` and `max` digits |
| Ocr.DateFromShape | src/services/ocr/OCRService.php:52 | a date capture is one or two digits, a slash, one or two digits, a slash, and two to four digits |
| Ocr.DateAtShape | src/services/ocr/OCRService.php:52 | a match of the `Data:` pattern at any position captures a date of that shape |
| Ocr.DateTrimmed | src/services/ocr/OCRService.php:52-59 | `trim` leaves a captured date unchanged |
| Ocr.DateShaped | src/services/ocr/OCRService.php:52-59 | a date stored in the draft has the `d/m/y` shape of the pattern |
| Strings.Trim | src/services/ocr/OCRService.php:100-102 | `trim` leaves a contiguous slice of its input with no strippable character at either end, and everything after the slice is strippable |
| Strings.TrimKeeps | src/services/ocr/OCRService.php:83 | trimming changes nothing exactly when neither end is strippable |
| Strings.TrimIdempotent | src/services/ocr/OCRService.php:59 | trimming twice is trimming once |
| Strings.JoinLines | src/services/ocr/OCRService.php:74 | the pieces of `explode("\n", …)` joined with line feeds give back the text |
| Strings.LinesJoin | src/services/ocr/OCRService.php:74 | lines without line feeds are recovered exactly by splitting their join |
| Strings.Lines | src/services/ocr/OCRService.php:74 | `explode("\n", …)` gives at least one piece, and no piece holds a line feed |
| Validation.BasicValidation | src/services/validation/PrescriptionValidator.php:78-118 | the draft is kept; the record is valid exactly when there are no errors; the confidence is halved when there are errors; review is flagged exactly when there are errors or warnings |
| Validation.BasicValidIffComplete | src/services/validation/PrescriptionValidator.php:84-110 | the fallback accepts a draft exactly when the patient, doctor and CRM are present and non-blank, there is a medication, and every medication has a name |
| Validation.WarningsDoNotAffectValidity | src/services/validation/PrescriptionValidator.php:97-115 | two drafts that differ only in dosages get the same validity, errors and confidence |
| Validation.WarningOrigins | src/services/validation/PrescriptionValidator.php:98-105 | there is one warning per medication whose dosage is blank or has no unit, in list order, each naming its medication |
| Validation.NameErrorOrigins | src/services/validation/PrescriptionValidator.php:84-101 | the errors are exactly the draft-level ones, then one error per nameless medication, in list order |
| Validation.DraftErrorsOrder | src/services/validation/PrescriptionValidator.php:84-95 | each draft-level error appears exactly when its part is missing, at most once each, in the order patient, doctor, medications |
| Validation.HasDosageUnitMeansPattern | src/services/validation/PrescriptionValidator.php:103 | the dosage scan holds exactly when digits, optional white space and a unit occur in a row somewhere in the dosage |
| Validation.ShapedDosagePasses | src/services/validation/PrescriptionValidator.php:103 | a dosage the medication-line pattern accepted is non-blank and passes the unit check |
| Validation.ExtractedDraftHasNoWarnings | src/services/validation/PrescriptionValidator.php:103-104 | a draft produced by extraction never draws a dosage warning |
| Validation.CompleteDraftNoReview | src/services/validation/PrescriptionValidator.php:108-117 | a draft with no errors and no warnings keeps its confidence and is not flagged |
| Validation.FallbackIgnoresThreshold | src/services/validation/PrescriptionValidator.php:116 | a complete draft read at 0.5 is not flagged for review, although 0.5 is below 0.85 |
| Validation.RequiresManualReview | src/services/validation/PrescriptionValidator.php:120-125 | an invalid result, a confidence below 0.85, or any warning each call for review, and nothing else does |
| Validation.ReviewThresholdBoundary | src/services/validation/PrescriptionValidator.php:123 | the threshold is strict, so a clean result at exactly 0.85 needs no review; lowering the confidence never removes the need for review |
| Validation.Validate | src/services/validation/PrescriptionValidator.php:20-53 | with a script result, that result and its review verdict are merged into the draft; without one, the fallback checks decide |
| Validation.PrimaryNoReviewMeansConfident | src/services/validation/PrescriptionValidator.php:41-45 | on the script's path, a record not flagged for review is valid, warning-free and at least 0.85 confident |
| Validation.ExtractedFallbackFlagBelowThreshold | src/services/validation/PrescriptionValidator.php:47-52 | for extracted drafts read at confidence 1 or less, a record the fallback flags always falls below 0.85 |
| ReviewQueue.Add | src/services/validation/PrescriptionValidator.php:146-155 | the item is stored under its id with the submission's data, other items are unchanged, and the id joins the end of the pending list |
| ReviewQueue.QueueForReview | src/services/validation/PrescriptionValidator.php:127-134 | the record is stored pending review, stamped with the current time, and its id is returned and appended to the pending list |
| ReviewQueue.GetPending | src/services/validation/PrescriptionValidator.php:157-170 | the listing holds the stored item of every pending id that has one, in pending-list order and once per copy of the id, and skips ids whose item is gone; so it is never longer than the pending list |
| ReviewQueue.GetPendingAfterAdd | src/services/validation/PrescriptionValidator.php:146-170 | right after adding under a fresh id, the pending list is the earlier list followed by the new item |
| ReviewQueue.RemoveAll | src/services/validation/PrescriptionValidator.php:185 | every copy of the id leaves the list; every other entry stays, in its original order and with all its copies; a list without the id is unchanged |
| ReviewQueue.Approve | src/services/validation/PrescriptionValidator.php:172-188 | approval succeeds exactly when the id is stored, and the only failure is "Validation item not found"; on success the item becomes approved with the corrections and time, keeps its data, is written back, and the pending list loses every copy of the id and keeps the rest in order; nothing else changes |
| ReviewQueue.ConsistentPreserved | src/services/validation/PrescriptionValidator.php:146-188 | the empty queue is consistent, and adding and approving keep every pending id backed by a stored item |
| ReviewQueue.ApproveAfterAdd | src/services/validation/PrescriptionValidator.php:146-188 | approving a freshly added item gives back its data, approved, and restores the earlier pending list |
| ReviewQueue.ApproveRemovesEveryCopy | src/services/validation/PrescriptionValidator.php:185 | an id queued twice is cleared by one approval |
| ReviewQueue.ReapprovalOverwrites | src/services/validation/PrescriptionValidator.php:179-184 | approving again succeeds and replaces the earlier corrections and time |
| Controller.RequestManualValidation | src/api/controllers/PrescriptionController.php:75-83 | the record is queued, the response carries its validation id, and nothing outside is called |
| Controller.Fulfil | src/api/controllers/PrescriptionController.php:43-72 | the ERP is always called first, at most four calls are made, success needs all four, and the queue is untouched |
| Controller.ProcessPrescription | src/api/controllers/PrescriptionController.php:28-73 | every failure reports the generic error; a validation request carries the generated id and makes no outside call; otherwise the queue is untouched |
| Controller.RouteByConfidence | src/api/controllers/PrescriptionController.php:38-44 | below 0.85 the record is queued and nothing outside is called; at 0.85 or above it goes to the ERP and the queue is untouched |
| Controller.ReviewFlagIgnored | src/api/controllers/PrescriptionController.php:39-44 | a record flagged for review but at least 0.85 confident is sent to the ERP |
| Controller.FlaggedButConfidentExists | src/services/validation/PrescriptionValidator.php:41-45 | the script can return a record that is flagged for review and still at least 0.85 confident |
| Controller.ProcessedMeansAllSucceeded | src/api/controllers/PrescriptionController.php:44-63 | success reports the ERP's prescription id and the quote's id, after all four outside calls succeeded |
| Controller.FailureStopsTheRoute | src/api/controllers/PrescriptionController.php:43-72 | every call before the last succeeded; the route fails exactly when the last call raised, and reports that call's message |
| Controller.RecognitionFailure | src/api/controllers/PrescriptionController.php:65-72 | a recognition failure is reported with its message, and nothing is queued or called |
| WhatsApp.FormatPhoneNumber | src/services/whatsapp/WhatsAppService.php:150-160 | the result is all digits; an 11-digit number gains the prefix 55 and becomes 13 digits; any other length is left as its digits |
| WhatsApp.DigitsInOrder | src/services/whatsapp/WhatsAppService.php:153 | stripping non-digits keeps every digit of the input, in order, and nothing else |
| WhatsApp.FormatPhoneNumberIdempotent | src/services/whatsapp/WhatsAppService.php:150-160 | formatting an already formatted number changes nothing |
| WhatsApp.CommandOf | src/services/whatsapp/WhatsAppService.php:119-138 | the help reply answers exactly `ajuda` and `help`, status exactly `status`, cancel exactly `cancelar`, after trimming and lower-casing |
| WhatsApp.HelpWords | src/services/whatsapp/WhatsAppService.php:128-130 | `ajuda` and `HELP` both reach the help reply |
| WhatsApp.StatusWord | src/services/whatsapp/WhatsAppService.php:125-126 | `Status` is classified as the status command, whose branch raises the undefined-method error |
| WhatsApp.NoTextIsOther | src/services/whatsapp/WhatsAppService.php:121-136 | a message without text is classified as `Other` and falls to the default branch |
| WhatsApp.CommandIgnoresCaseAndPadding | src/services/whatsapp/WhatsAppService.php:121 | lower-casing or trimming the text first does not change the command |
| WhatsApp.TrimLower | src/services/whatsapp/WhatsAppService.php:121 | trimming and lower-casing commute |
| WhatsApp.HandleWebhook | src/services/whatsapp/WhatsAppService.php:21-37 | a bad signature fails with "Invalid webhook signature"; otherwise an image message becomes an image job with its URL and sender, and anything else is handled as a text command |
| WhatsApp.HandleTextCommand | src/services/whatsapp/WhatsAppService.php:119-138 | only the help command succeeds, with a help reply to the sender; every other command fails with the undefined-method error of the handler its branch calls |
| WhatsApp.OnlyHelpIsAnswered | src/services/whatsapp/WhatsAppService.php:119-138 | a text message is answered exactly when it reads `ajuda` or `help`; `status`, `cancelar` and anything else fail calling `sendStatusUpdate`, `cancelPendingOrders` and `sendDefaultMessage` |
| WhatsApp.ImageTypeIsExact | src/services/whatsapp/WhatsAppService.php:93-97 | a message is an image message exactly when its type is the string `image`; a message without a type, a body without a message, and a missing body are not |
| WhatsApp.SignatureCheckedFirst | src/services/whatsapp/WhatsAppService.php:24-33 | a bad signature is rejected whatever the body, and an image message is never read as a command |
| WhatsApp.ImageTypeIsCaseSensitive | src/services/whatsapp/WhatsAppService.php:93-97 | only the exact type `image` marks an image message; `IMAGE` does not |

## Left out

- Image preprocessing, the recogniser backends and their confidence are not modelled. Recognition is a parameter that yields text and a confidence, or fails with a message.
- `executeRScript` and the statistics script are not modelled: no shell command, no timeout, no JSON parsing. The script's result is an `Option` input. `None` covers the failures that reach the fallback: the command failing and output that is not JSON.
- The JSON the script returns is taken to hold the four fields the code reads. A script result missing one of them is not modelled. Nor is output that decodes to JSON `null`: `json_decode` then reports no error, so the source merges a null validation and a null confidence, flags the record for review, and the route queues it, since null compares below 0.85.
- Redis is two values (a hash and a list), and every queue operation returns the new state. Redis failures and concurrent access are not modelled.
- `uniqid` and `time()` are parameters. Their uniqueness is an assumption, written `Fresh` where a lemma needs it.
- Stored items are values, not JSON text. The round trip through `json_encode` and `json_decode` is taken to be the identity.
- The HMAC signature (`verifyWebhookSignature`) is not computed. Its verdict is a boolean input.
- `sendMessage`, `sendHelpMessage`, `processImageMessage`, `queuePrescriptionProcessing` and `sendQuote` send or queue messages, and `formatQuoteMessage` builds the quote's text. The model stops at which of them is reached and with which arguments; the help reply's text is not modelled. The status, cancel and default handlers do not exist in the class, and the model records the error their call raises.
- The ERP, the quote generator and the payment service are parameters that succeed or fail with a message. Only the quote fields the route reads are modelled.
- Confidences are exact reals, not IEEE doubles. Rounding in `confidence * 0.5` is not modelled.
- The `medications` pattern in `parsePrescription` is not modelled, because line 64 always overwrites what it captured.
- The `date` field is the matched text; no date is parsed, as in the source.
- `?? 'medication'` in the dosage warning is not modelled, because every medication the extraction builds has a name.
- Text is a sequence of Unicode characters, not bytes. The en dash in `[-–]` is read as one character. PCRE without the `u` flag would see its three bytes as three separate class members.
- Logging is not modelled: the `error_log` call when validation falls back (src/services/validation/PrescriptionValidator.php:48) and `logError` in the route (src/api/controllers/PrescriptionController.php:66, 85-92).
- `getConfidence()` is called twice, once for the result and once for the handwriting check (src/services/ocr/OCRService.php:41, 112). The model assumes both calls return the same value.
- Ocr.IsHandwritten: states only the direction below 0.7 and the boundary; the exact equivalence is stated by `Ocr.ExtractText`.
