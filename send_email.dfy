/**
 * The serverless send handler: it answers a preflight request, refuses other
 * methods, checks that the mail service is configured and that the request
 * carries its fields, maps the department to its verified sender, builds the
 * mail service's payload and makes one send call, whose outcome it maps to
 * the response.
 *
 * The environment's API key, the outcome of the send call and the current
 * time are inputs; the send call itself is recorded in the result.
 */
module SendEmail {
  import opened Wrappers
  import opened Strings
  import opened Departments

  /** A request field as it arrives: absent, or a string. */
  type Field = Option<string>

  /** JavaScript truthiness of a field: present and not the empty string. */
  predicate Truthy(f: Field) {
    f.Some? && f.value != ""
  }

  datatype Attachment = Attachment(content: Field, filename: Field, mimeType: Field)

  datatype RequestBody = RequestBody(
    clientEmail: Field,
    subject: Field,
    html: Field,
    department: Field,
    language: Field,
    attachment: Option<Attachment>)

  datatype Request = Request(httpMethod: string, body: RequestBody)

  /** What the send call did: it answered with a status, or it threw. */
  datatype SendOutcome = Answered(status: nat) | Threw(message: string)

  /** The value a sender lookup found: an address, or an inherited member of every object. */
  datatype SenderValue = Address(email: string) | InheritedMember(name: string)

  datatype OutAttachment = OutAttachment(content: Field, filename: string, mimeType: string, disposition: string)

  datatype Part = Part(mimeType: string, value: string)

  /** The mail service's payload; `attachments` is absent unless the request has an attachment. */
  datatype Payload = Payload(
    recipients: seq<string>,
    fromEmail: SenderValue,
    fromName: string,
    subject: string,
    content: seq<Part>,
    attachments: Option<seq<OutAttachment>>)

  datatype ResponseBody =
    | NoBody
    | ErrorOnly(error: string)
    | ErrorWithMessage(error: string, message: string)
    | MissingFields(error: string, missingFields: seq<RequiredField>)
    | Sent(message: string, statusCode: nat, timestamp: string)
    | NotSent(error: string, message: string, timestamp: string)

  datatype Response = Response(status: nat, body: ResponseBody)

  /** The response, and the payloads handed to the send call (none or one). */
  datatype Exchange = Exchange(response: Response, sends: seq<Payload>)

  /** The required fields, named in a 400 response by their property names. */
  datatype RequiredField = ClientEmailField | SubjectField | HtmlField | DepartmentField

  function FieldName(f: RequiredField): string {
    match f
    case ClientEmailField => "clientEmail"
    case SubjectField => "subject"
    case HtmlField => "html"
    case DepartmentField => "department"
  }

  /** The fixed order in which missing fields are listed. */
  const RequiredFields: seq<RequiredField> := [ClientEmailField, SubjectField, HtmlField, DepartmentField]

  function Rank(f: RequiredField): (n: nat)
    ensures n < |RequiredFields| && RequiredFields[n] == f
  {
    match f
    case ClientEmailField => 0
    case SubjectField => 1
    case HtmlField => 2
    case DepartmentField => 3
  }

  function FieldValue(b: RequestBody, f: RequiredField): Field {
    match f
    case ClientEmailField => b.clientEmail
    case SubjectField => b.subject
    case HtmlField => b.html
    case DepartmentField => b.department
  }

  /** The falsy required fields, in the fixed order. */
  function MissingFieldNames(b: RequestBody): (r: seq<RequiredField>)
    ensures r == [] <==> Truthy(b.clientEmail) && Truthy(b.subject) && Truthy(b.html) && Truthy(b.department)
    ensures forall f :: f in r <==> !Truthy(FieldValue(b, f))
    ensures forall i, j | 0 <= i < j < |r| :: Rank(r[i]) < Rank(r[j])
  {
    (if Truthy(b.clientEmail) then [] else [ClientEmailField])
    + (if Truthy(b.subject) then [] else [SubjectField])
    + (if Truthy(b.html) then [] else [HtmlField])
    + (if Truthy(b.department) then [] else [DepartmentField])
  }

  /** The verified sender of each department, keyed by the department's identifier. */
  function OwnSender(department: string): (r: Option<string>)
    ensures r.Some? <==> ParseDepartment(department).Some?
  {
    if department == "Free SA" then Some("memberships@freesa.org.za")
    else if department == "TLU SA" then Some("info@tlu.co.za")
    else if department == "Firearms Guardian" then Some("benefits@firearmsguardian.co.za")
    else if department == "Civil Society SA" then Some("contributors@civilsocietysa.co.za")
    else None
  }

  /** The members every JavaScript object inherits; each of them is truthy. */
  const ObjectMembers: seq<string> := [
    "constructor", "hasOwnProperty", "isPrototypeOf", "propertyIsEnumerable",
    "toLocaleString", "toString", "valueOf", "__proto__",
    "__defineGetter__", "__defineSetter__", "__lookupGetter__", "__lookupSetter__"]

  /** Whether a property lookup sees inherited members, as `senderMap[department]` does, or only the map's own entries. */
  datatype LookupRule = WithInherited | OwnOnly

  /** The sender a lookup finds for a department identifier. */
  function LookupSender(rule: LookupRule, department: string): (r: Option<SenderValue>)
    ensures rule == OwnOnly ==> (r.Some? <==> ParseDepartment(department).Some?)
    ensures r.Some? && r.value.Address? ==> OwnSender(department) == Some(r.value.email)
  {
    match OwnSender(department)
    case Some(email) => Some(Address(email))
    case None =>
      if rule == WithInherited && department in ObjectMembers then Some(InheritedMember(department)) else None
  }

  /** `senderMap[department]` as written: an inherited member's name also finds a (truthy) value. */
  function SenderLookupAsWritten(department: string): (r: Option<SenderValue>)
    ensures OwnSender(department).Some? ==> r == Some(Address(OwnSender(department).value))
    ensures OwnSender(department).None? && department in ObjectMembers ==> r == Some(InheritedMember(department))
    ensures OwnSender(department).None? && department !in ObjectMembers ==> r.None?
  {
    LookupSender(WithInherited, department)
  }

  /** The sender for a department: only the four departments have one. */
  function SenderFor(department: string): (r: Option<SenderValue>)
    ensures r.Some? <==> ParseDepartment(department).Some?
    ensures r.Some? ==> r.value == Address(OwnSender(department).value)
  {
    LookupSender(OwnOnly, department)
  }

  /** The attachment as sent: the file name and type default, the disposition is fixed. */
  function OutgoingAttachment(a: Attachment): (r: OutAttachment)
    ensures r.content == a.content && r.disposition == "attachment"
    ensures r.filename == if Truthy(a.filename) then a.filename.value else "Application_Form.pdf"
    ensures r.mimeType == if Truthy(a.mimeType) then a.mimeType.value else "application/pdf"
  {
    OutAttachment(a.content,
                  if Truthy(a.filename) then a.filename.value else "Application_Form.pdf",
                  if Truthy(a.mimeType) then a.mimeType.value else "application/pdf",
                  "attachment")
  }

  /** The payload: one recipient, the sender named after the department, one HTML part, and the attachment if any. */
  function BuildPayload(b: RequestBody, from: SenderValue): (p: Payload)
    requires b.clientEmail.Some? && b.subject.Some? && b.html.Some? && b.department.Some?
    ensures p.recipients == [b.clientEmail.value]
    ensures p.fromEmail == from && p.fromName == b.department.value && p.subject == b.subject.value
    ensures p.content == [Part("text/html", b.html.value)]
    ensures p.attachments.Some? <==> b.attachment.Some?
    ensures b.attachment.Some? ==> p.attachments.value == [OutgoingAttachment(b.attachment.value)]
  {
    var p := Payload([b.clientEmail.value], from, b.department.value, b.subject.value,
                     [Part("text/html", b.html.value)], None);
    if b.attachment.Some? then p.(attachments := Some([OutgoingAttachment(b.attachment.value)])) else p
  }

  /** The response to the send call's outcome: only status 202 counts as sent. */
  function SendResponse(outcome: SendOutcome, now: string): (r: Response)
    ensures r.status == 200 <==> outcome == Answered(202)
    ensures r.status == 200 ==> r.body == Sent("Email sent successfully", 202, now)
    ensures r.status != 200 ==> r.status == 500 && r.body.NotSent? && r.body.error == "Failed to send email"
    ensures outcome.Answered? && outcome.status != 202 ==>
              r.body == NotSent("Failed to send email", "SendGrid returned " + NatToString(outcome.status), now)
    ensures outcome.Threw? ==> r.body == NotSent("Failed to send email", outcome.message, now)
  {
    match outcome
    case Answered(status) =>
      if status == 202 then Response(200, Sent("Email sent successfully", 202, now))
      else Response(500, NotSent("Failed to send email", "SendGrid returned " + NatToString(status), now))
    case Threw(message) => Response(500, NotSent("Failed to send email", message, now))
  }

  /** The request passes every check exactly when the handler makes its one send call. */
  ghost predicate Accepted(req: Request, apiKey: Field) {
    && req.httpMethod == "POST" && Truthy(apiKey) && MissingFieldNames(req.body) == []
    && ParseDepartment(req.body.department.value).Some?
  }

  /**
   * The handler, with the given sender lookup rule: it sends at most once, only
   * for a POST with a key and every required field, and answers with one of
   * the statuses 200, 400, 405 and 500.
   */
  function HandleWith(rule: LookupRule, req: Request, apiKey: Field, outcome: SendOutcome, now: string): (e: Exchange)
    ensures |e.sends| <= 1
    ensures e.sends != [] ==> req.httpMethod == "POST" && Truthy(apiKey) && MissingFieldNames(req.body) == []
    ensures e.sends != [] ==> e.response == SendResponse(outcome, now)
    ensures e.response.status in {200, 400, 405, 500}
  {
    if req.httpMethod == "OPTIONS" then Exchange(Response(200, NoBody), [])
    else if req.httpMethod != "POST" then Exchange(Response(405, ErrorOnly("Method not allowed")), [])
    else if !Truthy(apiKey) then
      Exchange(Response(500, ErrorWithMessage("Server configuration error",
                                              "Email service is not properly configured.")), [])
    else if MissingFieldNames(req.body) != [] then
      Exchange(Response(400, MissingFields("Missing required fields", MissingFieldNames(req.body))), [])
    else match LookupSender(rule, req.body.department.value)
      case None => Exchange(Response(400, ErrorOnly("Invalid department")), [])
      case Some(from) => Exchange(SendResponse(outcome, now), [BuildPayload(req.body, from)])
  }

  /**
   * `handler` as written: the sender map is looked up with inherited members,
   * so a send is made for a department of the table or for the name of a
   * member every object inherits.
   */
  function HandleAsWritten(req: Request, apiKey: Field, outcome: SendOutcome, now: string): (e: Exchange)
    ensures e.sends != [] ==>
              && req.body.department.Some?
              && (ParseDepartment(req.body.department.value).Some? || req.body.department.value in ObjectMembers)
  {
    HandleWith(WithInherited, req, apiKey, outcome, now)
  }

  /** `handler` with the sender map looked up by its own entries only: a send is made exactly for an accepted request. */
  function Handle(req: Request, apiKey: Field, outcome: SendOutcome, now: string): (e: Exchange)
    ensures e.sends != [] <==> Accepted(req, apiKey)
  {
    HandleWith(OwnOnly, req, apiKey, outcome, now)
  }

  // ---------------------------------------------------------------------------
  // Properties of the handler

  /** A preflight request is answered with 200 before anything else is looked at. */
  lemma OptionsFirst(rule: LookupRule, req: Request, apiKey: Field, outcome: SendOutcome, now: string)
    requires req.httpMethod == "OPTIONS"
    ensures HandleWith(rule, req, apiKey, outcome, now) == Exchange(Response(200, NoBody), [])
  {
  }

  /** Any method other than POST and OPTIONS is refused with 405 and nothing is sent. */
  lemma OtherMethodsRefused(rule: LookupRule, req: Request, apiKey: Field, outcome: SendOutcome, now: string)
    requires req.httpMethod != "OPTIONS" && req.httpMethod != "POST"
    ensures HandleWith(rule, req, apiKey, outcome, now) == Exchange(Response(405, ErrorOnly("Method not allowed")), [])
  {
  }

  /** Without an API key a POST is answered with 500, whatever its body holds. */
  lemma MissingKeyBeforeFields(rule: LookupRule, req: Request, apiKey: Field, outcome: SendOutcome, now: string)
    requires req.httpMethod == "POST" && !Truthy(apiKey)
    ensures HandleWith(rule, req, apiKey, outcome, now).response.status == 500
    ensures HandleWith(rule, req, apiKey, outcome, now).response.body.ErrorWithMessage?
    ensures HandleWith(rule, req, apiKey, outcome, now).sends == []
  {
  }

  /** With a key, a falsy required field gives 400 listing exactly the falsy fields, and nothing is sent. */
  lemma MissingFieldsReported(rule: LookupRule, req: Request, apiKey: Field, outcome: SendOutcome, now: string)
    requires req.httpMethod == "POST" && Truthy(apiKey)
    requires !(Truthy(req.body.clientEmail) && Truthy(req.body.subject) && Truthy(req.body.html) && Truthy(req.body.department))
    ensures var e := HandleWith(rule, req, apiKey, outcome, now);
      && e.response.status == 400 && e.sends == []
      && e.response.body == MissingFields("Missing required fields", MissingFieldNames(req.body))
      && (forall f :: f in e.response.body.missingFields <==> !Truthy(FieldValue(req.body, f)))
  {
  }

  /** A request whose fields are all present but whose department is not one of the four is refused, and nothing is sent. */
  lemma InvalidDepartmentRefused(req: Request, apiKey: Field, outcome: SendOutcome, now: string)
    requires req.httpMethod == "POST" && Truthy(apiKey) && MissingFieldNames(req.body) == []
    requires ParseDepartment(req.body.department.value).None?
    ensures Handle(req, apiKey, outcome, now) == Exchange(Response(400, ErrorOnly("Invalid department")), [])
  {
  }

  /**
   * An accepted request is sent exactly once, to the client's address alone,
   * from the department's verified sender named after the department, with
   * the HTML as the one part; a refused one is not sent at all.
   */
  lemma OneSend(req: Request, apiKey: Field, outcome: SendOutcome, now: string)
    ensures var e := Handle(req, apiKey, outcome, now);
      && |e.sends| == (if Accepted(req, apiKey) then 1 else 0)
      && (Accepted(req, apiKey) ==>
            var d := ParseDepartment(req.body.department.value).value;
            && e.sends[0].recipients == [req.body.clientEmail.value]
            && e.sends[0].fromEmail == Address(Config(d).senderEmail)
            && e.sends[0].fromName == DepartmentName(d)
            && e.sends[0].content == [Part("text/html", req.body.html.value)]
            && e.response == SendResponse(outcome, now))
  {
    if Accepted(req, apiKey) {
      var d := ParseDepartment(req.body.department.value).value;
      SenderMatchesDepartment(d);
    }
  }

  /** Every department's verified sender is its configured sender address. */
  lemma SenderMatchesDepartment(d: Department)
    ensures OwnSender(DepartmentName(d)) == Some(Config(d).senderEmail)
  {
    match d
    case FreeSA =>
    case TluSA =>
    case FirearmsGuardian =>
    case CivilSocietySA =>
  }

  /** Without an attachment the payload has none; with one it has exactly one, with the defaults filled in. */
  lemma AttachmentShape(rule: LookupRule, req: Request, apiKey: Field, outcome: SendOutcome, now: string)
    requires Accepted(req, apiKey)
    ensures |HandleWith(rule, req, apiKey, outcome, now).sends| == 1
    ensures var p := HandleWith(rule, req, apiKey, outcome, now).sends[0];
      && (req.body.attachment.None? ==> p.attachments.None?)
      && (req.body.attachment.Some? ==>
            var a := req.body.attachment.value;
            && p.attachments == Some([OutgoingAttachment(a)])
            && (!Truthy(a.filename) ==> p.attachments.value[0].filename == "Application_Form.pdf")
            && (!Truthy(a.mimeType) ==> p.attachments.value[0].mimeType == "application/pdf"))
  {
  }

  // ---------------------------------------------------------------------------
  // The inherited-member lookup

  /** A body naming an inherited member of every object as its department, with every other field set. */
  function InheritedNameRequest(): Request {
    Request("POST", RequestBody(Some("client@example.com"), Some("Subject"), Some("<p>Hi</p>"),
                                Some("toString"), Some("en"), None))
  }

  /**
   * As written, the department "toString" passes the sender check: the send
   * call is made with an inherited function as the sender address, instead of
   * the request being refused as an invalid department.
   */
  lemma InheritedDepartmentSentAsWritten(outcome: SendOutcome, now: string)
    ensures |HandleAsWritten(InheritedNameRequest(), Some("key"), outcome, now).sends| == 1
    ensures HandleAsWritten(InheritedNameRequest(), Some("key"), outcome, now).sends[0].fromEmail
            == InheritedMember("toString")
    ensures Handle(InheritedNameRequest(), Some("key"), outcome, now)
            == Exchange(Response(400, ErrorOnly("Invalid department")), [])
  {
    assert ObjectMembers[5] == "toString";
    assert MissingFieldNames(InheritedNameRequest().body) == [];
  }

  /** The two lookups agree on every department of the table; they differ only on inherited members' names. */
  lemma LookupsAgreeOnDepartments(department: string)
    requires department !in ObjectMembers
    ensures SenderLookupAsWritten(department) == SenderFor(department)
  {
  }

  /** For a department's own identifier the handler as written and the corrected one answer alike. */
  lemma AsWrittenAgreesForDepartments(req: Request, apiKey: Field, outcome: SendOutcome, now: string)
    requires req.body.department.Some? && ParseDepartment(req.body.department.value).Some?
    ensures HandleAsWritten(req, apiKey, outcome, now) == Handle(req, apiKey, outcome, now)
  {
    assert LookupSender(WithInherited, req.body.department.value) == LookupSender(OwnOnly, req.body.department.value);
  }
}
