/** The messaging helpers of src/services/whatsapp/WhatsAppService.php: phone
    number normalisation, text command classification, and the order in
    which an incoming webhook is checked and dispatched. Sending messages,
    queueing image jobs and computing the signature are outside the model;
    the signature check's verdict is an input. */
module WhatsApp {
  import opened Wrappers
  import opened Strings
  import opened Search

  /*---------------------------------------------------------------------------
   * formatPhoneNumber
   *-------------------------------------------------------------------------*/

  function DigitOnly(c: char): Option<char> {
    if IsDigit(c) then Some(c) else None
  }

  /** `preg_replace('/[^0-9]/', '', s)`: the decimal digits of `s`, in order. */
  function Digits(s: string): string {
    FilterMap(s, DigitOnly)
  }

  /** The digits kept are exactly the digits of the input, in their order. */
  lemma DigitsInOrder(s: string)
    ensures var r, o := Digits(s), Kept(s, DigitOnly);
      && AllDigits(r)
      && |o| == |r|
      && (forall j :: 0 <= j < |o| ==> o[j] < |s| && r[j] == s[o[j]])
      && (forall j, k :: 0 <= j < k < |o| ==> o[j] < o[k])
      && (forall i :: 0 <= i < |s| && IsDigit(s[i]) ==> i in o)
  {
    var o := Kept(s, DigitOnly);
    assert forall i :: 0 <= i < |s| && IsDigit(s[i]) ==> DigitOnly(s[i]).Some?;
  }

  /** A string of digits is its own digit string. */
  lemma {:induction false} DigitsOfDigits(s: string)
    requires AllDigits(s)
    ensures Digits(s) == s
    decreases |s|
  {
    if s != [] {
      DigitsOfDigits(s[1..]);
      assert s == [s[0]] + s[1..];
    }
  }

  /** `formatPhoneNumber`: keep the digits, and give an 11-digit number
      (area code and subscriber) the Brazilian country code 55. */
  function FormatPhoneNumber(phone: string): (r: string)
    ensures AllDigits(r)
    ensures |Digits(phone)| == 11 ==> r == "55" + Digits(phone) && |r| == 13
    ensures |Digits(phone)| != 11 ==> r == Digits(phone)
  {
    DigitsInOrder(phone);
    var d := Digits(phone);
    if |d| == 11 then "55" + d else d
  }

  /** Formatting an already formatted number changes nothing. */
  lemma FormatPhoneNumberIdempotent(phone: string)
    ensures FormatPhoneNumber(FormatPhoneNumber(phone)) == FormatPhoneNumber(phone)
  {
    DigitsOfDigits(FormatPhoneNumber(phone));
  }

  /*---------------------------------------------------------------------------
   * Text commands
   *-------------------------------------------------------------------------*/

  datatype Command = Status | Help | Cancel | Other

  /** `strtolower(trim(text))`; a missing text reads as the empty string. */
  function Normalize(text: Option<string>): string {
    Lower(Trim(text.GetOr("")))
  }

  /** The `switch` of `handleTextCommand`. */
  function CommandOf(text: Option<string>): (c: Command)
    ensures c == Help <==> Normalize(text) == "ajuda" || Normalize(text) == "help"
    ensures c == Status <==> Normalize(text) == "status"
    ensures c == Cancel <==> Normalize(text) == "cancelar"
  {
    var t := Normalize(text);
    if t == "status" then Status
    else if t == "ajuda" || t == "help" then Help
    else if t == "cancelar" then Cancel
    else Other
  }

  /** Both help words reach the help reply, in either letter case. */
  lemma HelpWords()
    ensures CommandOf(Some("ajuda")) == Help
    ensures CommandOf(Some("HELP")) == Help
  {
    TrimKeeps("ajuda");
    TrimKeeps("HELP");
    LowerOf("HELP", "help");
    LowerOf("ajuda", "ajuda");
  }

  /** The status word is recognised whatever its letter case. */
  lemma StatusWord()
    ensures CommandOf(Some("Status")) == Status
  {
    TrimKeeps("Status");
    LowerOf("Status", "status");
  }

  /** A message without text falls to the default branch. */
  lemma NoTextIsOther()
    ensures CommandOf(None) == Other
  {
    TrimKeeps("");
  }

  lemma LowerOf(s: string, l: string)
    requires |s| == |l| && forall i :: 0 <= i < |s| ==> ToLower(s[i]) == l[i]
    ensures Lower(s) == l
  {
  }

  /** Classification ignores letter case and surrounding white space. */
  lemma CommandIgnoresCaseAndPadding(t: string)
    ensures CommandOf(Some(Lower(t))) == CommandOf(Some(t))
    ensures CommandOf(Some(Trim(t))) == CommandOf(Some(t))
  {
    TrimLower(t);
    LowerLower(Trim(t));
    TrimIdempotent(t);
  }

  lemma LowerLower(s: string)
    ensures Lower(Lower(s)) == Lower(s)
  {
  }

  /** Lower-casing and trimming commute: `trim` strips no letter. */
  lemma TrimLower(s: string)
    ensures Trim(Lower(s)) == Lower(Trim(s))
  {
    var l := Lower(s);
    var a := TrimStart(s);
    var b := a + |Trim(s)|;
    LowerTrimmable(s);
    assert TrimStart(l) == a by {
      SkipTo(l, 0, IsTrimmable, a);
    }
    assert a < b ==> !IsTrimmable(l[b - 1]) by {
      var r := Trim(s);
      if r != [] {
        assert r[|r| - 1] == s[b - 1];
      }
    }
    TrimAt(l, a, b);
    LowerSlice(s, a, b);
  }

  /** Lower-casing neither creates nor removes a trimmable character. */
  lemma LowerTrimmable(s: string)
    ensures forall i :: 0 <= i < |s| ==> (IsTrimmable(Lower(s)[i]) <==> IsTrimmable(s[i]))
  {
  }

  /** Lower-casing a slice is slicing the lower-cased string. */
  lemma LowerSlice(s: string, a: nat, b: nat)
    requires a <= b <= |s|
    ensures Lower(s)[a..b] == Lower(s[a..b])
  {
  }

  /** `trim` keeps exactly the span from the first to the last non-trimmable character. */
  lemma TrimAt(s: string, a: nat, b: nat)
    requires a <= b <= |s| && TrimStart(s) == a
    requires forall i :: b <= i < |s| ==> IsTrimmable(s[i])
    requires a < b ==> !IsTrimmable(s[b - 1])
    ensures Trim(s) == s[a..b]
  {
    var r := Trim(s);
    var e := a + |r|;
    if r != [] {
      assert s[e - 1] == r[|r| - 1];
    }
  }

  /*---------------------------------------------------------------------------
   * Webhooks
   *-------------------------------------------------------------------------*/

  /** The decoded webhook body; any key may be absent. */
  datatype Message = Message(kind: Option<string>, text: Option<string>, imageUrl: Option<string>)
  datatype WebhookData = WebhookData(from: Option<string>, message: Option<Message>)

  /** What the webhook leads to: an image job, or the reply to a text command. */
  datatype Dispatch =
    | ImageJob(imageUrl: Option<string>, from: Option<string>)
    | Reply(command: Command, from: Option<string>)

  const InvalidSignature: string := "Invalid webhook signature"

  /** The methods `WhatsAppService` declares. */
  const DeclaredMethods: set<string> := {
    "__construct", "handleWebhook", "sendQuote", "formatQuoteMessage", "isImageMessage",
    "processImageMessage", "handleTextCommand", "verifyWebhookSignature", "formatPhoneNumber",
    "queuePrescriptionProcessing", "sendHelpMessage"
  }

  /** The method each branch of the `switch` in `handleTextCommand` calls. */
  function Handler(c: Command): string {
    match c
    case Status => "sendStatusUpdate"
    case Help => "sendHelpMessage"
    case Cancel => "cancelPendingOrders"
    case Other => "sendDefaultMessage"
  }

  /** The message of the `Error` PHP raises for a call to a method the class does not declare. */
  function UndefinedMethod(name: string): string {
    "Call to undefined method App\\Services\\WhatsApp\\WhatsAppService::" + name + "()"
  }

  /** `isImageMessage`: the message type is present and is exactly `image`. */
  predicate IsImageMessage(data: Option<WebhookData>) {
    data.Some? && data.value.message.Some? && data.value.message.value.kind == Some("image")
  }

  function MessageText(data: Option<WebhookData>): Option<string> {
    if data.Some? && data.value.message.Some? then data.value.message.value.text else None
  }

  function Sender(data: Option<WebhookData>): Option<string> {
    if data.Some? then data.value.from else None
  }

  function ImageUrl(data: Option<WebhookData>): Option<string> {
    if data.Some? && data.value.message.Some? then data.value.message.value.imageUrl else None
  }

  /** `handleTextCommand`: the branch the text selects, and the call it makes.
      Only the help branch calls a method the class declares; the status,
      cancel and default branches call methods it does not, and PHP raises
      an `Error` naming the missing method. */
  function HandleTextCommand(data: Option<WebhookData>): (r: Result<Dispatch, string>)
    ensures r.Success? <==> CommandOf(MessageText(data)) == Help
    ensures r.Success? ==> r.value == Reply(Help, Sender(data))
    ensures r.Failure? ==> r.error == UndefinedMethod(Handler(CommandOf(MessageText(data))))
  {
    var c := CommandOf(MessageText(data));
    if Handler(c) in DeclaredMethods then Success(Reply(c, Sender(data)))
    else Failure(UndefinedMethod(Handler(c)))
  }

  /** `handleWebhook`: `data` is the decoded body, `None` when it is not a
      JSON object. The signature is checked first, then the message type. */
  function HandleWebhook(signatureValid: bool, data: Option<WebhookData>): (r: Result<Dispatch, string>)
    ensures !signatureValid <==> r == Failure(InvalidSignature)
    ensures signatureValid && IsImageMessage(data) ==> r == Success(ImageJob(ImageUrl(data), Sender(data)))
    ensures signatureValid && !IsImageMessage(data) ==> r == HandleTextCommand(data)
  {
    if !signatureValid then Failure(InvalidSignature)
    else if IsImageMessage(data) then Success(ImageJob(ImageUrl(data), Sender(data)))
    else HandleTextCommand(data)
  }

  /** With a valid signature, a message that is not an image is answered
      exactly when its text is a help word; every other text, and a message
      without text, ends in the undefined-method error of its branch. */
  lemma OnlyHelpIsAnswered(data: Option<WebhookData>)
    requires !IsImageMessage(data)
    ensures var r, t := HandleWebhook(true, data), Normalize(MessageText(data));
      && (r.Success? <==> t == "ajuda" || t == "help")
      && (t == "status" ==> r == Failure(UndefinedMethod("sendStatusUpdate")))
      && (t == "cancelar" ==> r == Failure(UndefinedMethod("cancelPendingOrders")))
      && (t != "status" && t != "cancelar" && t != "ajuda" && t != "help" ==> r == Failure(UndefinedMethod("sendDefaultMessage")))
  {
  }

  /** A bad signature is rejected whatever the body, before it is looked at;
      an image message is never read as a command, even if it has text. */
  lemma SignatureCheckedFirst(d1: Option<WebhookData>, d2: Option<WebhookData>)
    ensures HandleWebhook(false, d1) == HandleWebhook(false, d2)
    ensures IsImageMessage(d1) ==> HandleWebhook(true, d1).value.ImageJob?
  {
  }

  /** Only the type decides: a message is an image message exactly when its
      type is the string `image`, whatever its text and url; a body without
      a message or a message without a type is not one. */
  lemma ImageTypeIsExact(from: Option<string>, kind: string, text: Option<string>, url: Option<string>)
    ensures IsImageMessage(Some(WebhookData(from, Some(Message(Some(kind), text, url))))) <==> kind == "image"
    ensures !IsImageMessage(Some(WebhookData(from, Some(Message(None, text, url)))))
    ensures !IsImageMessage(Some(WebhookData(from, None))) && !IsImageMessage(None)
  {
  }

  /** The type comparison is exact: `IMAGE` is not an image message. */
  lemma ImageTypeIsCaseSensitive(from: Option<string>, text: Option<string>, url: Option<string>)
    ensures !IsImageMessage(Some(WebhookData(from, Some(Message(Some("IMAGE"), text, url)))))
    ensures IsImageMessage(Some(WebhookData(from, Some(Message(Some("image"), text, url)))))
  {
  }
}
