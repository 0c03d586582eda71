/**
 * The send form: the department and language chosen, the client's name and
 * address, the agent, the submitting flag and the last notice shown. Sending
 * checks the inputs, posts one request to the send handler and, on success,
 * clears the client's details.
 *
 * The network is a parameter: `HandleSend` is given what the post returned.
 * The base64 text of the generated PDF is a parameter too.
 */
module App {
  import opened Wrappers
  import opened Strings
  import opened Departments
  import opened Templates
  import opened EmailHtml
  import opened SendEmail

  // ---------------------------------------------------------------------------
  // The address check

  /** A part of an address around the `@` and the `.`: non-empty, no white space and no `@`. */
  ghost predicate AddressPart(x: string) {
    x != "" && forall k | 0 <= k < |x| :: !IsJsWhiteSpace(x[k]) && x[k] != '@'
  }

  /** What `^[^\s@]+@[^\s@]+\.[^\s@]+$` matches: a part, `@`, a part, `.`, a part. */
  ghost predicate MatchesAddressPattern(s: string) {
    exists a, b, c :: s == a + "@" + b + "." + c && AddressPart(a) && AddressPart(b) && AddressPart(c)
  }

  /**
   * The address check, stated on positions: no white space, exactly one `@`,
   * not first, and a `.` after it that is neither right after the `@` nor last.
   */
  predicate IsValidEmail(s: string) {
    && (forall k | 0 <= k < |s| :: !IsJsWhiteSpace(s[k]))
    && exists i | 0 < i < |s| :: && s[i] == '@'
                                 && (forall k | 0 <= k < |s| && k != i :: s[k] != '@')
                                 && exists j | i + 1 < j < |s| - 1 :: s[j] == '.'
  }

  lemma {:induction false} ValidEmailMatches(s: string)
    requires IsValidEmail(s)
    ensures MatchesAddressPattern(s)
  {
    var i :| 0 < i < |s| && s[i] == '@' && (forall k | 0 <= k < |s| && k != i :: s[k] != '@')
             && exists j | i + 1 < j < |s| - 1 :: s[j] == '.';
    var j :| i + 1 < j < |s| - 1 && s[j] == '.';
    var a, b, c := s[..i], s[i + 1..j], s[j + 1..];
    assert s == a + "@" + b + "." + c by {
      assert s == s[..i] + [s[i]] + s[i + 1..j] + [s[j]] + s[j + 1..];
    }
    forall k | 0 <= k < |a| ensures !IsJsWhiteSpace(a[k]) && a[k] != '@' {
      assert a[k] == s[k];
    }
    forall k | 0 <= k < |b| ensures !IsJsWhiteSpace(b[k]) && b[k] != '@' {
      assert b[k] == s[i + 1 + k];
    }
    forall k | 0 <= k < |c| ensures !IsJsWhiteSpace(c[k]) && c[k] != '@' {
      assert c[k] == s[j + 1 + k];
    }
    assert s == a + "@" + b + "." + c && AddressPart(a) && AddressPart(b) && AddressPart(c);
  }

  lemma {:induction false} MatchingIsValid(s: string)
    requires MatchesAddressPattern(s)
    ensures IsValidEmail(s)
  {
    var a, b, c :| s == a + "@" + b + "." + c && AddressPart(a) && AddressPart(b) && AddressPart(c);
    var i, j := |a|, |a| + 1 + |b|;
    forall k | 0 <= k < |s| ensures !IsJsWhiteSpace(s[k]) && (k != i && k != j ==> s[k] != '@') {
      if k < i {
        assert s[k] == a[k];
      } else if i < k < j {
        assert s[k] == b[k - i - 1];
      } else if j < k {
        assert s[k] == c[k - j - 1];
      }
    }
    assert s[i] == '@' && s[j] == '.';
  }

  /** The address check accepts exactly what the pattern matches. */
  lemma EmailCheckIsPattern(s: string)
    ensures IsValidEmail(s) <==> MatchesAddressPattern(s)
  {
    if IsValidEmail(s) {
      ValidEmailMatches(s);
    }
    if MatchesAddressPattern(s) {
      MatchingIsValid(s);
    }
  }

  // ---------------------------------------------------------------------------
  // The request

  const FormFileName: string := "Firearms_Guardian_Application_Form.pdf"
  const PdfType: string := "application/pdf"

  const RequiredFieldsNotice: string := "Please fill in all required fields."
  const InvalidEmailNotice: string := "Please enter a valid email address."
  const SendFailedNotice: string := "Failed to send email."
  const NetworkErrorNotice: string := "Network error. Please try again."

  /**
   * The body posted to the send handler: the address, the template's subject,
   * the rendered email, the department and the language, and the PDF when the
   * department attaches one and its encoding is not empty.
   */
  function BuildRequest(subject: string, html: string, hasAttachment: bool, dept: Department,
                        language: Language, email: string, pdfBase64: string): (r: RequestBody)
    ensures r.clientEmail == Some(email) && r.subject == Some(subject) && r.html == Some(html)
    ensures r.department == Some(DepartmentName(dept)) && r.language == Some(LanguageCode(language))
    ensures r.attachment.Some? <==> hasAttachment && pdfBase64 != ""
    ensures r.attachment.Some? ==>
              r.attachment.value == Attachment(Some(pdfBase64), Some(FormFileName), Some(PdfType))
  {
    var encoded := if hasAttachment then pdfBase64 else "";
    RequestBody(Some(email), Some(subject), Some(html), Some(DepartmentName(dept)), Some(LanguageCode(language)),
                if encoded != "" then Some(Attachment(Some(encoded), Some(FormFileName), Some(PdfType))) else None)
  }

  /** What the post returned: the handler's `success` and `error` fields, or a failure of the fetch or of reading its JSON. */
  datatype Reply = Replied(success: bool, error: Option<string>) | Unreachable

  datatype NoticeKind = Success | Failure
  datatype Notice = Notice(kind: NoticeKind, message: string)

  /** A request the form posted, and whether the form was marked as submitting meanwhile. */
  datatype Post = Post(body: RequestBody, whileSubmitting: bool)

  class SendForm {
    var activeDept: Department
    var language: Language
    var clientName: string
    var clientEmail: string
    var selectedAgent: string
    var isSubmitting: bool
    var notice: Option<Notice>
    /** The requests posted so far. */
    var posts: seq<Post>

    /** The form as first shown: Free SA, English, nothing entered. */
    constructor ()
      ensures activeDept == FreeSA && language == En
      ensures clientName == "" && clientEmail == "" && selectedAgent == ""
      ensures !isSubmitting && notice == None && posts == []
    {
      activeDept := FreeSA;
      language := En;
      clientName := "";
      clientEmail := "";
      selectedAgent := "";
      isSubmitting := false;
      notice := None;
      posts := [];
    }

    /** `isReady`: a name and an address that are not blank, and an agent. */
    predicate IsReady()
      reads this
      ensures IsReady() <==> !AllWhiteSpace(clientName) && !AllWhiteSpace(clientEmail) && selectedAgent != ""
    {
      Trim(clientName) != "" && Trim(clientEmail) != "" && selectedAgent != ""
    }

    /** The send button is disabled while submitting or while the form is not ready. */
    predicate ButtonDisabled()
      reads this
      ensures ButtonDisabled() <==>
                isSubmitting || AllWhiteSpace(clientName) || AllWhiteSpace(clientEmail) || selectedAgent == ""
    {
      isSubmitting || !IsReady()
    }

    /** `switchDepartment`: a new department, and no agent selected (the old one may not work there). */
    method SwitchDepartment(dept: Department)
      modifies this
      ensures activeDept == dept && selectedAgent == ""
      ensures language == old(language) && clientName == old(clientName) && clientEmail == old(clientEmail)
      ensures isSubmitting == old(isSubmitting) && notice == old(notice) && posts == old(posts)
    {
      activeDept := dept;
      selectedAgent := "";
    }

    /**
     * `handleSend`. A form that is not ready shows the required-fields notice;
     * then an address the check refuses shows the invalid-address notice; in
     * both cases nothing is posted and nothing else changes. Otherwise one
     * request is posted while the form is marked as submitting; a successful
     * reply clears the name, the address and the agent; the form is no longer
     * submitting afterwards, whatever the reply; the department and the
     * language are kept. `template` and `config` are the ones the form shows,
     * those of its department and language; `html` is the email rendered from
     * them for the form's client and agent, `GenerateEmailHtml(template,
     * config, clientName, selectedAgent)`. The PDF goes with the request
     * exactly for Firearms Guardian, when its encoding is not empty.
     */
    method HandleSend(template: EmailTemplate, config: DepartmentConfig, html: string, pdfBase64: string,
                      reply: Reply)
      requires template == GetTemplate(activeDept, language) && config == Config(activeDept)
      modifies this
      ensures activeDept == old(activeDept) && language == old(language)
      ensures !old(IsReady()) ==>
                && notice == Some(Notice(Failure, RequiredFieldsNotice))
                && posts == old(posts) && isSubmitting == old(isSubmitting)
                && clientName == old(clientName) && clientEmail == old(clientEmail)
                && selectedAgent == old(selectedAgent)
      ensures old(IsReady()) && !IsValidEmail(old(clientEmail)) ==>
                && notice == Some(Notice(Failure, InvalidEmailNotice))
                && posts == old(posts) && isSubmitting == old(isSubmitting)
                && clientName == old(clientName) && clientEmail == old(clientEmail)
                && selectedAgent == old(selectedAgent)
      ensures old(IsReady()) && IsValidEmail(old(clientEmail)) ==>
                && posts == old(posts) + [Post(BuildRequest(template.subject, html, config.hasAttachment, activeDept,
                                                            language, old(clientEmail), pdfBase64), true)]
                && (posts[|posts| - 1].body.attachment.Some? <==> activeDept == FirearmsGuardian && pdfBase64 != "")
                && !isSubmitting
                && (reply.Replied? && reply.success ==>
                      && notice == Some(Notice(Success, "Email sent to " + old(clientEmail)))
                      && clientName == "" && clientEmail == "" && selectedAgent == "")
                && (!(reply.Replied? && reply.success) ==>
                      && clientName == old(clientName) && clientEmail == old(clientEmail)
                      && selectedAgent == old(selectedAgent))
                && (reply.Replied? && !reply.success ==>
                      notice == Some(Notice(Failure, if reply.error.Some? && reply.error.value != ""
                                                     then reply.error.value else SendFailedNotice)))
                && (reply.Unreachable? ==> notice == Some(Notice(Failure, NetworkErrorNotice)))
    {
      if Trim(clientName) == "" || Trim(clientEmail) == "" || selectedAgent == "" {
        notice := Some(Notice(Failure, RequiredFieldsNotice));
        return;
      }
      if !IsValidEmail(clientEmail) {
        notice := Some(Notice(Failure, InvalidEmailNotice));
        return;
      }
      OnlyFirearmsGuardianHasAttachment(activeDept);
      Submit(BuildRequest(template.subject, html, config.hasAttachment, activeDept, language, clientEmail,
                          pdfBase64), reply);
    }

    /**
     * The second half of `handleSend`: the request is posted while the form is
     * marked as submitting, the reply decides the notice and whether the name,
     * the address and the agent are cleared, and the form is no longer
     * submitting afterwards.
     */
    method Submit(body: RequestBody, reply: Reply)
      modifies this
      ensures activeDept == old(activeDept) && language == old(language)
      ensures posts == old(posts) + [Post(body, true)] && !isSubmitting
      ensures reply.Replied? && reply.success ==>
                && notice == Some(Notice(Success, "Email sent to " + old(clientEmail)))
                && clientName == "" && clientEmail == "" && selectedAgent == ""
      ensures !(reply.Replied? && reply.success) ==>
                && clientName == old(clientName) && clientEmail == old(clientEmail)
                && selectedAgent == old(selectedAgent)
      ensures reply.Replied? && !reply.success ==>
                notice == Some(Notice(Failure, if reply.error.Some? && reply.error.value != ""
                                               then reply.error.value else SendFailedNotice))
      ensures reply.Unreachable? ==> notice == Some(Notice(Failure, NetworkErrorNotice))
    {
      isSubmitting := true;
      posts := posts + [Post(body, isSubmitting)];
      match reply {
        case Replied(success, error) =>
          if success {
            notice := Some(Notice(Success, "Email sent to " + clientEmail));
            clientName := "";
            clientEmail := "";
            selectedAgent := "";
          } else {
            notice := Some(Notice(Failure, if error.Some? && error.value != "" then error.value else SendFailedNotice));
          }
        case Unreachable =>
          notice := Some(Notice(Failure, NetworkErrorNotice));
      }
      isSubmitting := false;
    }
  }

  // ---------------------------------------------------------------------------
  // The form and the handler together

  /** The rendered email is never empty, so the handler finds the `html` field set. */
  lemma HtmlNonEmpty(t: EmailTemplate, config: DepartmentConfig, client: string, agent: string)
    ensures GenerateEmailHtml(t, config, client, agent) != ""
  {
    assert StartsWith(GenerateEmailHtml(t, config, client, agent), "<!DOCTYPE html>");
  }

  /** What the form sends for a department and a language has a subject and a non-empty rendering. */
  lemma TableRequestParts(d: Department, l: Language, client: string, agent: string)
    ensures GetTemplate(d, l).subject != ""
    ensures GenerateEmailHtml(GetTemplate(d, l), Config(d), client, agent) != ""
  {
    TableShape(d, l);
    HtmlNonEmpty(GetTemplate(d, l), Config(d), client, agent);
  }

  /** A request built from a checked address, a subject and a non-empty rendering passes every check of the handler. */
  lemma FormRequestAccepted(subject: string, html: string, hasAttachment: bool, dept: Department,
                            language: Language, email: string, pdfBase64: string, apiKey: Field)
    requires subject != "" && html != "" && IsValidEmail(email) && Truthy(apiKey)
    ensures Accepted(Request("POST", BuildRequest(subject, html, hasAttachment, dept, language, email, pdfBase64)),
                     apiKey)
  {
    assert email != "" by {
      var i :| 0 < i < |email| && email[i] == '@';
    }
    assert DepartmentName(dept) != "" by {
      assert |DepartmentName(dept)| > 0;
    }
    ParseDepartmentName(dept);
  }

  /**
   * The post the form makes for a department and a language: the template's
   * subject, the rendered email (`GenerateEmailHtml` of the template, never
   * empty by `TableRequestParts`), and the form's PDF when the department
   * attaches it.
   */
  function FormPost(dept: Department, language: Language, html: string, email: string, pdfBase64: string): Request {
    Request("POST", BuildRequest(GetTemplate(dept, language).subject, html, Config(dept).hasAttachment, dept,
                                 language, email, pdfBase64))
  }

  /**
   * A request built from a checked address, a subject and a non-empty
   * rendering is sent once, to that address alone, from the sender of the
   * department it names, under the department's name.
   */
  lemma BuiltRequestSent(subject: string, html: string, hasAttachment: bool, dept: Department, language: Language,
                         email: string, pdfBase64: string, apiKey: Field, outcome: SendOutcome, now: string)
    requires subject != "" && html != "" && IsValidEmail(email) && Truthy(apiKey)
    ensures var e := Handle(Request("POST", BuildRequest(subject, html, hasAttachment, dept, language, email,
                                                         pdfBase64)), apiKey, outcome, now);
      && |e.sends| == 1
      && e.sends[0].recipients == [email]
      && e.sends[0].fromEmail == Address(Config(dept).senderEmail)
      && e.sends[0].fromName == DepartmentName(dept)
      && e.response == SendResponse(outcome, now)
  {
    var req := Request("POST", BuildRequest(subject, html, hasAttachment, dept, language, email, pdfBase64));
    FormRequestAccepted(subject, html, hasAttachment, dept, language, email, pdfBase64, apiKey);
    ParseDepartmentName(dept);
    OneSend(req, apiKey, outcome, now);
  }

  /** Such a request carries the form exactly when the flag is set and the encoding is not empty. */
  lemma BuiltAttachmentSent(subject: string, html: string, hasAttachment: bool, dept: Department,
                            language: Language, email: string, pdfBase64: string, apiKey: Field,
                            outcome: SendOutcome, now: string)
    requires subject != "" && html != "" && IsValidEmail(email) && Truthy(apiKey)
    ensures var e := Handle(Request("POST", BuildRequest(subject, html, hasAttachment, dept, language, email,
                                                         pdfBase64)), apiKey, outcome, now);
      && |e.sends| == 1
      && (e.sends[0].attachments.Some? <==> hasAttachment && pdfBase64 != "")
      && (e.sends[0].attachments.Some? ==>
            e.sends[0].attachments.value == [OutAttachment(Some(pdfBase64), FormFileName, PdfType, "attachment")])
  {
    var req := Request("POST", BuildRequest(subject, html, hasAttachment, dept, language, email, pdfBase64));
    FormRequestAccepted(subject, html, hasAttachment, dept, language, email, pdfBase64, apiKey);
    AttachmentShape(OwnOnly, req, apiKey, outcome, now);
  }

  /**
   * With a checked address, a rendering and a key, the form's request is sent
   * once, to that address alone, from the sender of its department, under its
   * name.
   */
  lemma FormRequestSent(dept: Department, language: Language, html: string, email: string, pdfBase64: string,
                        apiKey: Field, outcome: SendOutcome, now: string)
    requires html != "" && IsValidEmail(email) && Truthy(apiKey)
    ensures var e := Handle(FormPost(dept, language, html, email, pdfBase64), apiKey, outcome, now);
      && |e.sends| == 1
      && e.sends[0].recipients == [email]
      && e.sends[0].fromEmail == Address(Config(dept).senderEmail)
      && e.sends[0].fromName == DepartmentName(dept)
      && e.response == SendResponse(outcome, now)
  {
    TableShape(dept, language);
    BuiltRequestSent(GetTemplate(dept, language).subject, html, Config(dept).hasAttachment, dept, language, email,
                     pdfBase64, apiKey, outcome, now);
  }

  /** The form's request carries the form exactly for Firearms Guardian, when its encoding is not empty. */
  lemma FormAttachmentSent(dept: Department, language: Language, html: string, email: string, pdfBase64: string,
                           apiKey: Field, outcome: SendOutcome, now: string)
    requires html != "" && IsValidEmail(email) && Truthy(apiKey)
    ensures var e := Handle(FormPost(dept, language, html, email, pdfBase64), apiKey, outcome, now);
      && |e.sends| == 1
      && (e.sends[0].attachments.Some? <==> dept == FirearmsGuardian && pdfBase64 != "")
      && (e.sends[0].attachments.Some? ==>
            e.sends[0].attachments.value == [OutAttachment(Some(pdfBase64), FormFileName, PdfType, "attachment")])
  {
    TableShape(dept, language);
    OnlyFirearmsGuardianHasAttachment(dept);
    BuiltAttachmentSent(GetTemplate(dept, language).subject, html, Config(dept).hasAttachment, dept, language,
                        email, pdfBase64, apiKey, outcome, now);
  }
}
