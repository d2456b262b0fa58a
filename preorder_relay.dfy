/** The pre-order relay endpoint: it accepts a POSTed pre-order, checks that the
    required fields are present, and forwards one notification mail to the
    shop's inbox. The mail transport is a parameter: `outcome` is what the one
    `sendMail` call would report if it were made. */
module PreorderRelay {
  import opened JsValues
  import opened Text

  const Sender := "\"NoLimit Pre-Orders\" <no-reply@nolimit.pro>"
  const Inbox := "contact@nolimit.pro"
  const ShortsLabel := "AI Performance Shorts"
  const ShirtsLabel := "AI Performance Shirts"

  /** The body properties the handler insists on, in the order it tests them. */
  const Required := ["firstName", "lastName", "email", "productType", "size"]

  /** `req.body`: a parsed object, or `undefined`/`null` when the request carried none. */
  datatype RequestBody = Parsed(fields: Fields) | Nullish

  datatype Mail = Mail(from: string, to: string, subject: string, html: string)

  /** What the transport's `sendMail` reports: delivery, or an error with its `message`. */
  datatype MailOutcome = Delivered | MailFailed(message: string)

  /** The handler's effect: one reply (status and JSON body) and the mail it
      sent, if any; or a rejected promise when destructuring the body throws. */
  datatype Result =
    | Responded(status: int, body: Fields, sent: Option<Mail>)
    | Rejected

  /** Some required property is absent or falsy: the test `!firstName || … || !size`. */
  predicate Missing(fields: Fields)
  {
    !Truthy(Get(fields, "firstName")) || !Truthy(Get(fields, "lastName")) ||
    !Truthy(Get(fields, "email")) || !Truthy(Get(fields, "productType")) ||
    !Truthy(Get(fields, "size"))
  }

  lemma MissingNamesARequiredField(fields: Fields)
    ensures Missing(fields) <==> exists k :: k in Required && !Truthy(Get(fields, k))
  {
  }

  /** Every property the mail's templates interpolate (`productType` is only
      compared) converts without throwing. */
  predicate Interpolable(fields: Fields)
  {
    Printable(Get(fields, "firstName")) && Printable(Get(fields, "lastName")) &&
    Printable(Get(fields, "email")) && Printable(Get(fields, "size")) &&
    Printable(Get(fields, "deviceType"))
  }

  /** The properties the templates interpolate. */
  const Interpolated := ["firstName", "lastName", "email", "size", "deviceType"]

  lemma InterpolableNamesEveryInterpolatedField(fields: Fields)
    ensures Interpolable(fields) <==> forall k :: k in Interpolated ==> Printable(Get(fields, k))
  {
  }

  function ProductLabel(productType: JsValue): (name: string)
    ensures name == ShortsLabel <==> productType == Str("shorts")
    ensures name == ShortsLabel || name == ShirtsLabel
  {
    if productType == Str("shorts") then ShortsLabel else ShirtsLabel
  }

  const SubjectLead := "\U{1F6D2} New Pre-Order from "

  function Subject(firstName: JsValue, lastName: JsValue): string
    requires Printable(firstName) && Printable(lastName)
  {
    SubjectLead + Display(firstName) + " " + Display(lastName)
  }

  const HtmlHead := "\n        <h2>New Pre-Order</h2>\n        <p><strong>Name:</strong> "
  const HtmlEmail := "</p>\n        <p><strong>Email:</strong> "
  const HtmlProduct := "</p>\n        <p><strong>Product:</strong> "
  const HtmlSize := "</p>\n        <p><strong>Size:</strong> "
  const HtmlDevice := "</p>\n        <p><strong>Device Type:</strong> "
  const HtmlTail := "</p>\n      "

  /** The pieces of the mail's body, variable parts at the odd positions. */
  function HtmlParts(fields: Fields): seq<string>
    requires Interpolable(fields)
  {
    [HtmlHead, Display(Get(fields, "firstName")), " ", Display(Get(fields, "lastName")),
     HtmlEmail, Display(Get(fields, "email")),
     HtmlProduct, ProductLabel(Get(fields, "productType")),
     HtmlSize, Display(Get(fields, "size")),
     HtmlDevice, Display(Get(fields, "deviceType")),
     HtmlTail]
  }

  function Html(fields: Fields): string
    requires Interpolable(fields)
  {
    Concat(HtmlParts(fields))
  }

  function Compose(fields: Fields): (mail: Mail)
    requires Interpolable(fields)
    ensures mail.from == Sender && mail.to == Inbox
  {
    Mail(Sender, Inbox, Subject(Get(fields, "firstName"), Get(fields, "lastName")), Html(fields))
  }

  function MethodNotAllowed(): Fields { map["error" := Str("Method not allowed")] }
  function MissingFields(): Fields { map["error" := Str("Missing required fields")] }
  function MailOk(): Fields { map["ok" := Bool(true)] }
  function MailError(message: string): Fields { map["error" := Str("mail_error"), "message" := Str(message)] }

  /** The exported request handler. The mail's templates are evaluated inside
      the `try`, before `sendMail` is called, so a value that cannot be
      interpolated is answered like a failed delivery, and no mail goes out. */
  function Handle(verb: string, body: RequestBody, outcome: MailOutcome): (r: Result)
    ensures verb != "POST" ==> r == Responded(405, MethodNotAllowed(), None)
    ensures r.Rejected? <==> verb == "POST" && body.Nullish?
    ensures (r.Responded? && r.status == 400) <==>
      verb == "POST" && body.Parsed? && Missing(body.fields)
    ensures r.Responded? && r.status == 400 ==> r.body == MissingFields() && r.sent == None
    ensures (r.Responded? && r.sent.Some?) <==>
      verb == "POST" && body.Parsed? && !Missing(body.fields) && Interpolable(body.fields)
    ensures r.Responded? && r.sent.Some? ==> r.sent.value == Compose(body.fields)
    ensures (r.Responded? && r.status == 200) <==> (r.Responded? && r.sent.Some? && outcome.Delivered?)
    ensures r.Responded? && r.status == 200 ==> r.body == MailOk()
    ensures (r.Responded? && r.status == 500) <==>
      verb == "POST" && body.Parsed? && !Missing(body.fields) &&
      (!Interpolable(body.fields) || outcome.MailFailed?)
    ensures r.Responded? && r.status == 500 && r.sent.Some? ==> r.body == MailError(outcome.message)
    ensures r.Responded? && r.status == 500 && r.sent.None? ==> r.body == MailError(ConversionError)
    ensures r.Responded? ==> r.status in {200, 400, 405, 500}
  {
    if verb != "POST" then
      Responded(405, MethodNotAllowed(), None)
    else
      match body
      case Nullish => Rejected
      case Parsed(fields) =>
        if Missing(fields) then
          Responded(400, MissingFields(), None)
        else if !Interpolable(fields) then
          Responded(500, MailError(ConversionError), None)
        else
          var mail := Compose(fields);
          match outcome
          case Delivered => Responded(200, MailOk(), Some(mail))
          case MailFailed(message) => Responded(500, MailError(message), Some(mail))
  }

  /** A body that passes the field guard but holds a value the templates cannot
      convert gets the conversion's 500 and no mail, whatever the transport. */
  lemma ConversionFailsBeforeSend(fields: Fields, outcome: MailOutcome)
    requires !Missing(fields) && !Interpolable(fields)
    ensures Handle("POST", Parsed(fields), outcome) == Responded(500, MailError(ConversionError), None)
  {
  }

  /** For instance, a first name that is an object with its own `toString` key. */
  lemma OwnToStringRefused()
    ensures Handle("POST", Parsed(map["firstName" := Obj(true), "lastName" := Str("a"), "email" := Str("b"),
                                      "productType" := Str("c"), "size" := Str("d")]), Delivered)
         == Responded(500, MailError(ConversionError), None)
  {
    var fields := map["firstName" := Obj(true), "lastName" := Str("a"), "email" := Str("b"),
                      "productType" := Str("c"), "size" := Str("d")];
    assert Get(fields, "firstName") == Obj(true);
    assert Get(fields, "lastName") == Str("a") && Get(fields, "email") == Str("b");
    assert Get(fields, "productType") == Str("c") && Get(fields, "size") == Str("d");
    ConversionFailsBeforeSend(fields, Delivered);
  }

  /** The method is tested before the body is looked at: a request that is
      not a POST gets the same 405 whatever its body and the transport. */
  lemma MethodCheckedFirst(verb: string, b1: RequestBody, b2: RequestBody, o1: MailOutcome, o2: MailOutcome)
    requires verb != "POST"
    ensures Handle(verb, b1, o1) == Handle(verb, b2, o2)
    ensures Handle(verb, b1, o1).status == 405
  {
  }

  /** `deviceType` is not required: a POST carrying the five required fields
      passes the guard whether or not `deviceType` is present, and removing a
      convertible `deviceType` changes neither the mail being sent nor the status. */
  lemma DeviceTypeOptional(fields: Fields, outcome: MailOutcome)
    requires !Missing(fields)
    ensures Handle("POST", Parsed(fields - {"deviceType"}), outcome).status != 400
    ensures Interpolable(fields) ==> Handle("POST", Parsed(fields - {"deviceType"}), outcome).sent.Some?
    ensures Printable(Get(fields, "deviceType")) ==>
      Handle("POST", Parsed(fields - {"deviceType"}), outcome).status
        == Handle("POST", Parsed(fields), outcome).status &&
      Handle("POST", Parsed(fields - {"deviceType"}), outcome).sent.Some?
        == Handle("POST", Parsed(fields), outcome).sent.Some?
  {
  }

  /** The mail goes to the fixed inbox and its subject names the customer,
      first name before last name. */
  lemma {:induction false} SubjectNamesCustomer(fields: Fields)
    requires Interpolable(fields)
    ensures Compose(fields).to == Inbox
    ensures ContainsInOrder(Compose(fields).subject,
                            Display(Get(fields, "firstName")), Display(Get(fields, "lastName")))
  {
    PiecesInOrder(SubjectLead, Display(Get(fields, "firstName")), " ", Display(Get(fields, "lastName")), "");
    assert Compose(fields).subject
        == SubjectLead + Display(Get(fields, "firstName")) + " " + Display(Get(fields, "lastName")) + "";
  }

  /** The mail body carries every field the handler read, and the product
      label, each between the label that names it and the next one. */
  lemma {:induction false} HtmlCarriesOrder(fields: Fields)
    requires Interpolable(fields)
    ensures Contains(Html(fields), HtmlHead + Display(Get(fields, "firstName")) + " ")
    ensures Contains(Html(fields), " " + Display(Get(fields, "lastName")) + HtmlEmail)
    ensures Contains(Html(fields), HtmlEmail + Display(Get(fields, "email")) + HtmlProduct)
    ensures Contains(Html(fields), HtmlProduct + ProductLabel(Get(fields, "productType")) + HtmlSize)
    ensures Contains(Html(fields), HtmlSize + Display(Get(fields, "size")) + HtmlDevice)
    ensures Contains(Html(fields), HtmlDevice + Display(Get(fields, "deviceType")) + HtmlTail)
  {
    var parts := HtmlParts(fields);
    TripleContained(parts, 0);
    TripleContained(parts, 2);
    TripleContained(parts, 4);
    TripleContained(parts, 6);
    TripleContained(parts, 8);
    TripleContained(parts, 10);
  }

  /** At most one mail per invocation, and it is the same mail whatever the
      transport then reports: only the reply depends on the outcome. */
  lemma MailIndependentOfOutcome(verb: string, body: RequestBody, o1: MailOutcome, o2: MailOutcome)
    requires Handle(verb, body, o1).Responded?
    ensures Handle(verb, body, o2).Responded?
    ensures Handle(verb, body, o1).sent == Handle(verb, body, o2).sent
  {
  }
}
