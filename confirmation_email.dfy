/** The confirmation e-mail edge function: it reads the customer's details
    from the request, asks the e-mail provider to send them a confirmation,
    and maps the provider's answer to a JSON response. The provider call is a
    parameter: `provider` is what the one `fetch` would produce if it were made. */
module ConfirmationEmail {
  import opened JsValues
  import opened Text

  const Sender := "AI Performance Wear <orders@aiperformance.com>"
  const Subject := "Your Pre-order Confirmation"
  const FailureText := "Failed to send confirmation email"

  /** `await req.json()` followed by destructuring: the parsed object, or the
      exception either step throws (malformed JSON, a `null` body). */
  datatype BodyRead = Parsed(fields: Fields) | Unreadable(reason: string)

  /** The JSON body of the request sent to the provider. `to` is copied
      unconverted, so it may be any value the client sent, `undefined` included. */
  datatype Outbound = Outbound(from: string, to: JsValue, subject: string, html: string)

  /** What the provider call yields: a response with its `ok` flag, or an exception. */
  datatype ProviderOutcome = Answered(ok: bool) | Threw(reason: string)

  /** A response's status and JSON body; `new Response(body, init)` without a
      status in `init` answers 200. */
  datatype Response = Response(status: int, body: Fields)

  /** The callback's effect: the provider request it made, if any, and the
      response it returned; or a rejected promise. */
  datatype Result =
    | Replied(request: Option<Outbound>, response: Response)
    | Rejected(reason: string)

  const HtmlHead := "\n          <h1>Thank you for your pre-order, "
  const HtmlSize := "!</h1>\n          <p>We're excited to confirm your pre-order for our AI Performance Shorts.</p>\n          <h2>Order Details:</h2>\n          <ul>\n            <li>Size: "
  const HtmlDevice := "</li>\n            <li>Compatible Device: "
  const HtmlTail := "</li>\n          </ul>\n          <p>We'll keep you updated on the status of your order and notify you when your shorts are ready for shipping.</p>\n          <p>If you have any questions, please don't hesitate to reach out to our support team.</p>\n          <p>Best regards,<br>The AI Performance Wear Team</p>\n        "

  /** Every property the message body interpolates converts without throwing. */
  predicate Interpolable(fields: Fields)
  {
    Printable(Get(fields, "firstName")) && Printable(Get(fields, "size")) &&
    Printable(Get(fields, "deviceType"))
  }

  /** The pieces of the message body, variable parts at the odd positions. */
  function HtmlParts(firstName: JsValue, size: JsValue, deviceType: JsValue): seq<string>
    requires Printable(firstName) && Printable(size) && Printable(deviceType)
  {
    [HtmlHead, Display(firstName), HtmlSize, Display(size), HtmlDevice, Display(deviceType), HtmlTail]
  }

  function Html(firstName: JsValue, size: JsValue, deviceType: JsValue): string
    requires Printable(firstName) && Printable(size) && Printable(deviceType)
  {
    Concat(HtmlParts(firstName, size, deviceType))
  }

  function Request(fields: Fields): (out: Outbound)
    requires Interpolable(fields)
    ensures out.from == Sender && out.subject == Subject
    ensures out.to == Get(fields, "email")
  {
    Outbound(Sender, Get(fields, "email"), Subject,
             Html(Get(fields, "firstName"), Get(fields, "size"), Get(fields, "deviceType")))
  }

  function Sent(): Response { Response(200, map["success" := Bool(true)]) }
  function Failed(): Response { Response(500, map["error" := Str(FailureText)]) }

  /** The `serve` callback. The request's body is built inside the `try`,
      before `fetch` is called, so a value that cannot be interpolated is
      answered like a failed send, and no provider request is made. */
  function Serve(read: BodyRead, provider: ProviderOutcome): (r: Result)
    ensures r.Rejected? <==> read.Unreadable?
    ensures r.Rejected? ==> r.reason == read.reason
    ensures r.Replied? ==> (r.request.Some? <==> Interpolable(read.fields))
    ensures r.Replied? && r.request.Some? ==> r.request.value == Request(read.fields)
    ensures r.Replied? ==> (r.response == Sent() <==> r.request.Some? && provider == Answered(true))
    ensures r.Replied? ==> (r.response == Failed() <==> !(r.request.Some? && provider == Answered(true)))
  {
    match read
    case Unreadable(reason) => Rejected(reason)
    case Parsed(fields) =>
      if !Interpolable(fields) then Replied(None, Failed())   // the TypeError, caught below
      else
        var request := Request(fields);
        match provider
        case Threw(_) => Replied(Some(request), Failed())
        case Answered(ok) =>
          if !ok then Replied(Some(request), Failed())   // `throw new Error(...)`, caught below
          else Replied(Some(request), Sent())
  }

  /** A readable body holding a value the template cannot convert gets the
      500 response and no provider request, whatever the provider would do. */
  lemma ConversionFailsBeforeFetch(fields: Fields, provider: ProviderOutcome)
    requires !Interpolable(fields)
    ensures Serve(Parsed(fields), provider) == Replied(None, Failed())
  {
  }

  /** A provider that answers "not ok" and a provider call that throws are
      indistinguishable to the client. */
  lemma NotOkIsLikeThrow(read: BodyRead, reason: string)
    ensures Serve(read, Answered(false)) == Serve(read, Threw(reason))
  {
  }

  /** A request that cannot be read is not turned into the 500 response: the
      read happens before the `try`, and no provider call is made. */
  lemma UnreadableIsNotFailure(reason: string, provider: ProviderOutcome)
    ensures Serve(Unreadable(reason), provider) == Rejected(reason)
  {
  }

  /** The message body names the customer and repeats the chosen size and
      device, each between the text before it and the text after it. */
  lemma {:induction false} HtmlCarriesOrder(fields: Fields)
    requires Interpolable(fields)
    ensures Contains(Request(fields).html, HtmlHead + Display(Get(fields, "firstName")) + HtmlSize)
    ensures Contains(Request(fields).html, HtmlSize + Display(Get(fields, "size")) + HtmlDevice)
    ensures Contains(Request(fields).html, HtmlDevice + Display(Get(fields, "deviceType")) + HtmlTail)
  {
    var parts := HtmlParts(Get(fields, "firstName"), Get(fields, "size"), Get(fields, "deviceType"));
    assert Request(fields).html == Concat(parts);
    TripleContained(parts, 0);
    TripleContained(parts, 2);
    TripleContained(parts, 4);
  }
}
