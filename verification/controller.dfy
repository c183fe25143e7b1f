/** The intake route (`PrescriptionController::processPrescription` and
    `requestManualValidation` in src/api/controllers/PrescriptionController.php).
    Recognition, the validation script, the ERP, the payment service and the
    messaging service are outside the model: each is a parameter, and each
    call to the outside may fail with a message, as a thrown exception does. */
module Controller {
  import opened Wrappers
  import opened Ocr
  import opened Validation
  import opened ReviewQueue

  /** The fields of an ERP quote the route reads. */
  datatype Quote = Quote(id: string, prescriptionId: string)

  /** The collaborators. `recognize` stands for image preprocessing and the
      recogniser: the text and its confidence. */
  datatype Services = Services(
    recognize: () -> Result<(string, real), string>,
    primary: OcrResult -> Option<ValidationResult>,
    createPrescription: Validated -> Result<string, string>,
    generateQuote: string -> Result<Quote, string>,
    createPaymentLink: Quote -> Result<string, string>,
    sendQuote: (string, Quote, string) -> Result<(), string>)

  /** The outside calls the route makes after validation, in order. */
  datatype Call =
    | CreatePrescription
    | GenerateQuote(prescriptionId: string)
    | CreatePaymentLink(quote: Quote)
    | SendQuote(phone: string, quote: Quote, paymentLink: string)

  /** The three response shapes. */
  datatype Response =
    | Processed(prescriptionId: string, quoteId: string)
    | ValidationRequested(validationId: Id)
    | Failed(error: string, message: string)

  datatype Outcome = Outcome(response: Response, queue: QueueState, calls: seq<Call>)

  const ProcessingFailed: string := "Failed to process prescription"

  /** `requestManualValidation`: queue the record and report its id. */
  function RequestManualValidation(q: QueueState, id: Id, data: Validated, now: int): (o: Outcome)
    ensures o.response == ValidationRequested(id)
    ensures o.calls == []
    ensures o.queue == QueueForReview(q, id, data, now).1
  {
    var (vid, q') := QueueForReview(q, id, data, now);
    Outcome(ValidationRequested(vid), q', [])
  }

  /** Steps 4 to 7: ERP record, quote, payment link, message. The first
      failure ends the route with the generic error and its message. */
  function Fulfil(s: Services, data: Validated, phone: string, q: QueueState): (o: Outcome)
    ensures o.queue == q
    ensures o.response.Processed? || o.response.Failed?
    ensures 1 <= |o.calls| <= 4 && o.calls[0] == CreatePrescription
    ensures o.response.Processed? ==> |o.calls| == 4
  {
    match s.createPrescription(data)
    case Failure(e) => Outcome(Failed(ProcessingFailed, e), q, [CreatePrescription])
    case Success(pid) =>
      var calls1 := [CreatePrescription, GenerateQuote(pid)];
      match s.generateQuote(pid)
      case Failure(e) => Outcome(Failed(ProcessingFailed, e), q, calls1)
      case Success(quote) =>
        var calls2 := calls1 + [CreatePaymentLink(quote)];
        match s.createPaymentLink(quote)
        case Failure(e) => Outcome(Failed(ProcessingFailed, e), q, calls2)
        case Success(link) =>
          var calls3 := calls2 + [SendQuote(phone, quote, link)];
          match s.sendQuote(phone, quote, link)
          case Failure(e) => Outcome(Failed(ProcessingFailed, e), q, calls3)
          case Success(_) => Outcome(Processed(pid, quote.id), q, calls3)
  }

  /** `processPrescription`. `id` is what the id generator would hand out
      and `now` the clock's reading, used only when the record is queued. */
  function ProcessPrescription(s: Services, phone: string, q: QueueState, id: Id, now: int): (o: Outcome)
    ensures o.response.Failed? ==> o.response.error == ProcessingFailed
    ensures o.response.ValidationRequested? ==> o.response.validationId == id && o.calls == []
    ensures !o.response.ValidationRequested? ==> o.queue == q
  {
    match s.recognize()
    case Failure(e) => Outcome(Failed(ProcessingFailed, e), q, [])
    case Success((text, confidence)) =>
      var data := Validate(ExtractText(text, confidence), s.primary(ExtractText(text, confidence)));
      if data.confidence < ReviewThreshold then RequestManualValidation(q, id, data, now)
      else Fulfil(s, data, phone, q)
  }

  /** The record the route validates, when recognition succeeds. */
  function RouteRecord(s: Services): Option<Validated> {
    match s.recognize()
    case Failure(_) => None
    case Success((text, confidence)) =>
      Some(Validate(ExtractText(text, confidence), s.primary(ExtractText(text, confidence))))
  }

  /** The route depends only on the confidence: below 0.85 the record is
      queued and nothing outside is called; at 0.85 or above (0.85 included)
      the ERP is called first and the queue is untouched. */
  lemma RouteByConfidence(s: Services, phone: string, q: QueueState, id: Id, now: int)
    requires RouteRecord(s).Some?
    ensures var o, v := ProcessPrescription(s, phone, q, id, now), RouteRecord(s).value;
      && (v.confidence < 0.85 ==>
            o.response == ValidationRequested(id) && o.calls == [] && o.queue == QueueForReview(q, id, v, now).1)
      && (v.confidence >= 0.85 ==>
            o == Fulfil(s, v, phone, q) && o.queue == q && o.calls[0] == CreatePrescription && !o.response.ValidationRequested?)
  {
  }

  /** The review flag is never consulted: a record flagged for review but
      confident enough is sent to the ERP all the same. */
  lemma ReviewFlagIgnored(s: Services, phone: string, q: QueueState, id: Id, now: int)
    requires RouteRecord(s).Some? && RouteRecord(s).value.requiresManualReview
    requires RouteRecord(s).value.confidence >= 0.85
    ensures ProcessPrescription(s, phone, q, id, now).calls[0] == CreatePrescription
    ensures ProcessPrescription(s, phone, q, id, now).queue == q
  {
  }

  /** Such records exist: the script may judge a record invalid and still
      report a high confidence. */
  lemma FlaggedButConfidentExists(r: OcrResult)
    ensures var v := Validate(r, Some(ValidationResult(false, ["script error"], [], 0.9)));
      v.requiresManualReview && v.confidence >= ReviewThreshold
  {
  }

  /** Success reports the ERP's prescription id and the quote's id, after
      all four outside calls succeeded. */
  lemma ProcessedMeansAllSucceeded(s: Services, data: Validated, phone: string, q: QueueState)
    requires Fulfil(s, data, phone, q).response.Processed?
    ensures var o := Fulfil(s, data, phone, q);
      && s.createPrescription(data) == Success(o.response.prescriptionId)
      && s.generateQuote(o.response.prescriptionId).Success?
      && s.generateQuote(o.response.prescriptionId).value.id == o.response.quoteId
      && var quote := s.generateQuote(o.response.prescriptionId).value;
         s.createPaymentLink(quote).Success?
         && s.sendQuote(phone, quote, s.createPaymentLink(quote).value).Success?
  {
  }

  /** The error a call to the outside raises, if it raises one. */
  function CallError(s: Services, data: Validated, c: Call): Option<string> {
    match c
    case CreatePrescription =>
      if s.createPrescription(data).Failure? then Some(s.createPrescription(data).error) else None
    case GenerateQuote(pid) =>
      if s.generateQuote(pid).Failure? then Some(s.generateQuote(pid).error) else None
    case CreatePaymentLink(quote) =>
      if s.createPaymentLink(quote).Failure? then Some(s.createPaymentLink(quote).error) else None
    case SendQuote(phone, quote, link) =>
      if s.sendQuote(phone, quote, link).Failure? then Some(s.sendQuote(phone, quote, link).error) else None
  }

  /** Past the confidence check, every call but the last succeeded; the route fails
      exactly when the last call raised, and then reports that call's message. */
  lemma FailureStopsTheRoute(s: Services, data: Validated, phone: string, q: QueueState)
    ensures var o := Fulfil(s, data, phone, q);
      && (forall i :: 0 <= i < |o.calls| - 1 ==> CallError(s, data, o.calls[i]).None?)
      && (o.response.Failed? <==> CallError(s, data, o.calls[|o.calls| - 1]).Some?)
      && (o.response.Failed? ==> o.response == Failed(ProcessingFailed, CallError(s, data, o.calls[|o.calls| - 1]).value))
  {
  }

  /** A failed recognition is reported with its message; nothing else happens. */
  lemma RecognitionFailure(s: Services, phone: string, q: QueueState, id: Id, now: int)
    requires s.recognize().Failure?
    ensures ProcessPrescription(s, phone, q, id, now) == Outcome(Failed(ProcessingFailed, s.recognize().error), q, [])
  {
  }
}
