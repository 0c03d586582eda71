# Client email sender: a verified model

This project models the core of a small web tool. Call-centre agents use it to send a client a department's information email. A department is Free SA, TLU SA, Firearms Guardian or Civil Society SA; the email comes in English or Afrikaans. The tool has five parts, and the model covers each:

- **The data tables.** Four department configurations and eight email templates. The model covers the department identifiers, sender addresses, colours, agents and attachment flags, and the subject, greeting, body, sections, buttons, bank details and sign-off of each template.
- **The HTML email.** `generateEmailHtml` puts names into the greeting and body. Each section becomes a heading row, then either bullet rows (content of several lines with no ". ") or one prose cell with `<br>` line breaks. Then come the buttons, the optional bank table, the sign-off and the "Sent by" line, inside one fixed document.
- **The on-screen preview.** `EmailPreview` is modelled as an ordered list of blocks. It uses the same interpolation and the same list-or-prose rule, but its own fallbacks and empty-value renderings.
- **The send handler.** `api/sendEmail.js` checks the method, the API key, the required fields and the department. It builds the SendGrid payload, with the optional attachment, and maps the provider's answer to a response.
- **The send form.** From `App.tsx`: the readiness check, the address check, department switching, and `handleSend` (its guards, the posted request and the notice shown).
- **The PDF form.** `generateFirearmsGuardianPdf` lays out a fillable A4 form. It moves a vertical cursor, draws text and rectangles, registers uniquely named form fields, and word-wraps the declaration greedily.

The modules follow the program:

- `Departments` and `Templates` are the data tables.
- `Content` holds the interpolation and the list-or-prose rule that both renderers share.
- `EmailHtml` is the email and `EmailPreview` is the preview.
- `Renderings` relates the email and the preview.
- `SendEmail` is the handler and `App` is the form.
- `PdfForm` is the PDF layout.
- `Strings` holds the JavaScript string operations the code relies on:
  - `replace` with a string pattern, which replaces only the first occurrence and expands `$` patterns as in section 22.1.3.19.1 of ECMA-262;
  - `replace(/\n/g, …)`, `split`, `filter(Boolean)`, `join`, `includes`, `trim` and `toUpperCase`.

The form and the PDF layout change state step by step, so they are classes:
- `App.SendForm` holds the form's React state.
- `PdfForm.FormPage` holds the page cursor, the drawing log and the field registry.

Their methods are proved against functions of the inputs. The declaration's wrap loop is a `for` loop proved equal to the wrap function `Wrap`. The rest of the model is functions with lemmas.

Each template body is written as its opening words, the agent placeholder and the rest of the text in short pieces (`Templates.FreeSaEnText` and its siblings). The text is unchanged; the pieces keep each proof about the literal text small. The table facts are proved piece by piece: each body has exactly one agent placeholder (`Templates.TableShape`), and each list section's lines hold no full stop or newline (`Content.TableSectionsClassified`).

Placeholder replacement is neither literal nor global: the code calls `String.prototype.replace` with a string pattern, so:
- only the first `{{clientName}}` is replaced (`Content.GreetingReplacesFirstOnly`);
- `$&` and similar patterns in a name are expanded (`Content.DollarPatternInName`).

## Model

| member | source | states |
|---|---|---|
| Departments.ParseDepartment | src/data/departments.ts:1-2 | a parsed identifier names the department it was parsed from |
| Departments.ParseDepartmentName | src/data/departments.ts:1-2 | every department's identifier parses back to that department (identifiers are distinct) |
| Departments.Config | src/data/departments.ts:16-113 | the table entry looked up for a department is that department's entry |
| Departments.AgentsNonEmptyAndDistinct | src/data/departments.ts:17-112 | every department has at least one agent and lists no agent twice |
| Departments.OnlyFirearmsGuardianHasAttachment | src/data/departments.ts:17-112 | a department attaches the PDF exactly when it is Firearms Guardian |
| Departments.AllDepartmentsComplete | src/data/departments.ts:16-113 | the table lists every department, four in all, each once |
| Templates.GetTemplate | src/data/templates.ts:267-272 | the template looked up for a department and a language has a subject starting with the department's identifier and " - " |
| Templates.TableShape | src/data/templates.ts:17-272 | every template's subject is its department's identifier, " - " and a title; its greeting holds one client placeholder and no other brace; its body holds one agent placeholder and no other brace; it has bank details exactly for Free SA and TLU SA; it has one section (Free SA, TLU SA) or two, with an empty first heading exactly for Free SA; it has exactly one button |
| Templates.FreeSaEnShape | src/data/templates.ts:19-48 | the Free SA English template has the shape above |
| Templates.FreeSaAfShape | src/data/templates.ts:49-78 | the Free SA Afrikaans template has the shape above |
| Templates.TluSaEnShape | src/data/templates.ts:82-115 | the TLU SA English template has the shape above |
| Templates.TluSaAfShape | src/data/templates.ts:116-149 | the TLU SA Afrikaans template has the shape above |
| Templates.FirearmsGuardianEnShape | src/data/templates.ts:153-179 | the Firearms Guardian English template has the shape above |
| Templates.FirearmsGuardianAfShape | src/data/templates.ts:180-206 | the Firearms Guardian Afrikaans template has the shape above |
| Templates.CivilSocietyEnShape | src/data/templates.ts:210-236 | the Civil Society SA English template has the shape above |
| Templates.CivilSocietyAfShape | src/data/templates.ts:237-263 | the Civil Society SA Afrikaans template has the shape above |
| Strings.ReplaceFirst | src/utils/emailHtml.ts:10-14 | `replace` leaves a string without the pattern unchanged; with the pattern and a `$`-free value, the result is as long as the string less the pattern plus the value |
| Strings.Substitution | src/utils/emailHtml.ts:10-14 | a replacement text with no `$` is inserted as it is |
| Strings.ReplaceFirstAbsent | src/utils/emailHtml.ts:10-11 | `replace` leaves a string without the pattern unchanged |
| Strings.ReplaceFirstAt | src/utils/emailHtml.ts:10-11 | `replace` splices the value in at the first occurrence of the pattern and keeps the rest |
| Strings.ReplaceFirstSplice | src/utils/emailHtml.ts:10-11 | `replace` of a pattern preceded by text lacking its first character gives that text, the value and the remainder |
| Strings.ReplaceFirstKeepsLater | src/utils/emailHtml.ts:12-14 | a later occurrence of the pattern survives the replacement of the first, shifted by the length difference |
| Strings.IndexFrom | src/utils/emailHtml.ts:31 | the index found is the first occurrence at or after the start, and none is reported only when there is none |
| Strings.Contains | src/utils/emailHtml.ts:31 | `includes` holds exactly when the pattern occurs at some index |
| Strings.Split | src/utils/emailHtml.ts:28 | `split` yields at least one piece, and no piece holds the separator |
| Strings.NonEmpty | src/utils/emailHtml.ts:28 | `filter(Boolean)` keeps exactly the input's non-empty pieces (a piece is in the result iff it is in the input and not empty); with no empty piece it keeps them all |
| Strings.NonEmptyAppend | src/utils/emailHtml.ts:28 | filtering keeps the order: the kept pieces of two lists joined are those of the first, then those of the second |
| Strings.NonEmptySingle | src/utils/emailHtml.ts:28 | a single piece is kept exactly when it is not empty |
| Strings.SplitJoin | src/utils/emailHtml.ts:28 | splitting separator-free parts joined by the separator gives the parts back |
| Strings.JoinSplit | src/utils/emailHtml.ts:28 | joining the pieces of a split with the separator gives the string back |
| Strings.ReplaceAll | src/utils/emailHtml.ts:43 | a global replacement whose replacement text lacks the character leaves none of it |
| Strings.ReplaceAllIsSplitJoin | src/utils/emailHtml.ts:43 | replacing every newline is splitting on newlines and joining with the replacement |
| Strings.Trim | src/App.tsx:43 | `trim` gives "" exactly when the string is all white space |
| Strings.ToUpper | src/utils/pdfGenerator.ts:40 | the upper-cased title has the same length and each letter in upper case |
| Strings.NatToString | api/sendEmail.js:93 | a status is printed as a non-empty string of decimal digits |
| Strings.NatToStringRoundTrip | api/sendEmail.js:93 | the printed digits read back as the status |
| Content.Fallback | src/utils/emailHtml.ts:11 | `value \|\| fallback`: the value when it is not empty, else the fallback |
| Content.Greeting | src/utils/emailHtml.ts:10-11 | a greeting without a client placeholder is kept as it is |
| Content.Body | src/utils/emailHtml.ts:12-14 | a body with neither placeholder is kept as it is |
| Content.GreetingFilled | src/utils/emailHtml.ts:10-11 | a greeting with one client placeholder becomes its text around the name; with no brace in the name, no placeholder is left |
| Content.BodyFilled | src/utils/emailHtml.ts:12-14 | a body with one agent placeholder becomes its text around the agent's name, with no placeholder left |
| Content.AgentReplaced | src/utils/emailHtml.ts:12-14 | the agent's name goes in first; only then is the client placeholder replaced |
| Content.AgentReplacedBeforeClient | src/utils/emailHtml.ts:12-14 | an agent's name that itself holds `{{clientName}}` has that text replaced by the client's name |
| Content.GreetingReplacesFirstOnly | src/utils/emailHtml.ts:10-11 | of two client placeholders only the first is replaced |
| Content.DollarPatternInName | src/utils/emailHtml.ts:10-11 | a client name `$&` puts the placeholder itself back |
| Content.Segments | src/utils/emailHtml.ts:28 | the lines of a content are non-empty and hold no newline, and a piece is a line exactly when it is a non-empty piece of the content split on newlines |
| Content.SegmentsOfLines | src/utils/emailHtml.ts:28 | the lines of newline-free lines joined by newlines are those lines that are not empty, in order |
| Content.SegmentsOfBlocks | src/utils/emailHtml.ts:28 | the lines of two blocks joined by a newline are the first block's lines, then the second's |
| Content.Classify | src/utils/emailHtml.ts:28-31 | content is a list exactly when it has more than one non-empty line and no ". "; a list's items are those lines, and prose keeps the content |
| Content.ClassifyLines | src/utils/emailHtml.ts:28-31 | several non-empty lines without newlines or full stops, joined by newlines, are listed as those lines |
| Content.SentenceIsProse | src/utils/emailHtml.ts:31 | content holding ". " is prose |
| Content.SingleLineIsProse | src/utils/emailHtml.ts:28-31 | a single line is prose |
| Content.BlankLinesIgnored | src/utils/emailHtml.ts:28 | blank lines between items are dropped from the list |
| Content.TableGreetingFilled | src/utils/emailHtml.ts:10-11 | every table greeting becomes its text around a `$`-free client name, with no placeholder left when the name has no brace |
| Content.TableSectionsClassified | src/data/templates.ts:17-265 | every section of every template is a list of exactly its lines, except the Firearms Guardian pricing section, which is prose |
| Content.FreeSaEnLists | src/data/templates.ts:24-27 | the Free SA English section's lines are classified as that list |
| Content.FreeSaAfLists | src/data/templates.ts:54-57 | the Free SA Afrikaans section's lines are classified as that list |
| Content.TluSaEnLists | src/data/templates.ts:87-90 | the TLU SA English section's lines are classified as that list |
| Content.TluSaAfLists | src/data/templates.ts:121-124 | the TLU SA Afrikaans section's lines are classified as that list |
| Content.FirearmsGuardianEnLists | src/data/templates.ts:158-161 | the Firearms Guardian English benefits section's lines are classified as that list |
| Content.FirearmsGuardianAfLists | src/data/templates.ts:185-188 | the Firearms Guardian Afrikaans benefits section's lines are classified as that list |
| Content.CivilSocietyEnLists | src/data/templates.ts:215-224 | both Civil Society SA English sections' lines are classified as those lists |
| Content.CivilSocietyAfLists | src/data/templates.ts:242-251 | both Civil Society SA Afrikaans sections' lines are classified as those lists |
| Content.PricingIsProse | src/data/templates.ts:164-166 | the Firearms Guardian pricing sections, in both languages, are prose, not a list |
| Content.PricingNoteSentence | src/data/templates.ts:166 | the underwriting note of each pricing section holds ". " |
| EmailHtml.SpacerHasNoHeading | src/utils/emailHtml.ts:25 | the spacer row holds no heading |
| EmailHtml.HeadingHtml | src/utils/emailHtml.ts:21-25 | a heading element is emitted exactly when the heading is not empty, and it shows the heading; an empty heading gives the spacer row |
| EmailHtml.ItemHtml | src/utils/emailHtml.ts:36-38 | each list row shows the bullet and then the line |
| EmailHtml.ListRows | src/utils/emailHtml.ts:33-40 | one row per item, in order |
| EmailHtml.Breaks | src/utils/emailHtml.ts:43 | every newline of the text becomes `<br>` and none is left |
| EmailHtml.ContentHtml | src/utils/emailHtml.ts:41-45 | prose content is shown with its line breaks as `<br>` |
| EmailHtml.ListSectionRows | src/utils/emailHtml.ts:31-40 | list content is the concatenation of one bulleted row per line, showing that line |
| EmailHtml.ContentRowsInOrder | src/utils/emailHtml.ts:33-40 | list rows appear in the order of the lines |
| EmailHtml.ItemBullet | src/utils/emailHtml.ts:37 | a list row holds exactly one bullet |
| EmailHtml.ListBulletCount | src/utils/emailHtml.ts:33-40 | the list rows hold one bullet per item |
| EmailHtml.ContentBullets | src/utils/emailHtml.ts:28-45 | a section's content shows one bullet per line when it is a list, and none when it is prose |
| EmailHtml.SectionHtml | src/utils/emailHtml.ts:47 | a section is its heading row followed by its content |
| EmailHtml.SectionRows | src/utils/emailHtml.ts:18-20 | one rendering per section, in order |
| EmailHtml.SectionsHtml | src/utils/emailHtml.ts:18-50 | no sections give ""; otherwise every section's rendering appears |
| EmailHtml.SectionsInOrder | src/utils/emailHtml.ts:49 | sections appear in template order |
| EmailHtml.ButtonHtml | src/utils/emailHtml.ts:54-55 | a button is a link to its target, opening in a new tab, labelled with its text |
| EmailHtml.ButtonRows | src/utils/emailHtml.ts:52-57 | one link per button, in order |
| EmailHtml.ButtonsHtml | src/utils/emailHtml.ts:52-57 | every button appears, and no buttons give "" |
| EmailHtml.ButtonsInOrder | src/utils/emailHtml.ts:57 | buttons appear in template order |
| EmailHtml.BankRowHtml | src/utils/emailHtml.ts:66-71 | a bank row shows the key with a colon and then the value |
| EmailHtml.BankRowRows | src/utils/emailHtml.ts:66-71 | one row per bank entry, in order |
| EmailHtml.BankHtml | src/utils/emailHtml.ts:59-80 | no bank details give ""; otherwise the title comes before the rows, and the rows before the proof-of-payment note |
| EmailHtml.BankRowsInOrder | src/utils/emailHtml.ts:66-71 | bank rows appear in table order |
| EmailHtml.HtmlGreeting | src/utils/emailHtml.ts:10-11 | a greeting without a client placeholder is shown as it is |
| EmailHtml.HtmlBody | src/utils/emailHtml.ts:12-14 | the body as shown holds no newline: every one became `<br>` (line 104) |
| EmailHtml.DocumentHead | src/utils/emailHtml.ts:82-90 | the document starts with the doctype |
| EmailHtml.GreetingCell | src/utils/emailHtml.ts:98-101 | the greeting cell ends with the greeting |
| EmailHtml.BodyCell | src/utils/emailHtml.ts:102-105 | the body cell ends with the body |
| EmailHtml.FooterCell | src/utils/emailHtml.ts:115-120 | the closing phrase comes before the department's name |
| EmailHtml.SubFooter | src/utils/emailHtml.ts:124-133 | the sub-footer names the department's full name after "Sent by " and closes the document |
| EmailHtml.LayoutParts | src/utils/emailHtml.ts:82-133 | the document has eleven parts in a fixed order |
| EmailHtml.Layout | src/utils/emailHtml.ts:82-133 | the document starts with the doctype, ends with `</html>` and holds the "Sent by" line |
| EmailHtml.LayoutOrderTop | src/utils/emailHtml.ts:98-108 | the greeting comes before the body, and the body before the sections |
| EmailHtml.LayoutOrderMiddle | src/utils/emailHtml.ts:106-113 | the sections come before the buttons, and the buttons before the bank block |
| EmailHtml.LayoutOrderBottom | src/utils/emailHtml.ts:112-128 | the bank block, the closing phrase, the department and the "Sent by" line come in that order |
| EmailHtml.LayoutOrder | src/utils/emailHtml.ts:82-133 | the greeting, body, sections, buttons, bank block, closing, department and "Sent by" line come in that order |
| EmailHtml.LayoutShows | src/utils/emailHtml.ts:98-105 | the document shows the greeting and the body |
| EmailHtml.Document | src/utils/emailHtml.ts:82-133 | the document of a template shows its greeting and its body as rendered, and the "Sent by" line with the department's full name |
| EmailHtml.DocumentOrder | src/utils/emailHtml.ts:82-133 | the document of a template shows its rendered parts in template order |
| EmailHtml.NamesFilled | src/utils/emailHtml.ts:10-14 | the email shows the greeting with the client's name (or "[Client]") and the body with the agent's name (or "[Agent]") where the placeholders were |
| EmailHtml.ShapedNamesFilled | src/utils/emailHtml.ts:10-14 | for any template with one client placeholder in its greeting and one agent placeholder in its body, the email shows the names (or their fallbacks) where the placeholders were |
| EmailHtml.TableNamesFilled | src/utils/emailHtml.ts:10-14 | for every department and language, the email shows the client's name (or "[Client]") where the greeting's one placeholder was, and the agent's name (or "[Agent]") where the body's one placeholder was |
| EmailHtml.SourceRowsBulletFree | src/utils/emailHtml.ts:16-44 | the email's fixed row markup holds no `&`, so the bullets counted are the ones emitted |
| EmailHtml.GenerateEmailHtml | src/utils/emailHtml.ts:4-133 | the email starts with the doctype, ends with `</html>` and names the department's full name after "Sent by " |
| EmailPreview.ContentBlock | src/components/EmailPreview.tsx:46-87 | a content block is a bullet list of the content's lines exactly when the shared rule calls it a list; otherwise it is a paragraph of the content |
| EmailPreview.SectionBlocks | src/components/EmailPreview.tsx:49-89 | a section shows a heading block exactly when its heading is not empty, and then its content block |
| EmailPreview.SectionsBlocks | src/components/EmailPreview.tsx:45-91 | each section gives one or two blocks |
| EmailPreview.SectionsHeadings | src/components/EmailPreview.tsx:51-55 | a heading is shown exactly when it is not empty and some section has it |
| EmailPreview.ButtonBlocks | src/components/EmailPreview.tsx:95-111 | one label per button, in order, showing its text |
| EmailPreview.BankCells | src/components/EmailPreview.tsx:124-137 | one cell per bank row, the key with a colon, then the value |
| EmailPreview.BankBlocks | src/components/EmailPreview.tsx:115-146 | a bank block is shown exactly when the template has bank details; an empty proof note is left out |
| EmailPreview.AttachmentBlocks | src/components/EmailPreview.tsx:149-182 | the attachment notice is shown exactly when the department attaches the PDF |
| EmailPreview.Preview | src/components/EmailPreview.tsx:12-190 | the preview starts with the accent bar, the greeting and the body, and ends with the footer |
| EmailPreview.CountKind | src/components/EmailPreview.tsx:20-190 | a count of blocks of one kind is at most the number of blocks |
| EmailPreview.CountKindAppend | src/components/EmailPreview.tsx:20-190 | counts add up over concatenated block lists |
| EmailPreview.SectionBlockCount | src/components/EmailPreview.tsx:49-89 | a section contributes a heading when its heading is not empty, and one list or paragraph |
| EmailPreview.SectionsCounts | src/components/EmailPreview.tsx:45-91 | the sections show one heading per non-empty heading and nothing but headings, lists and paragraphs |
| EmailPreview.SectionsContentCount | src/components/EmailPreview.tsx:45-91 | the sections show exactly one list or paragraph each |
| EmailPreview.ButtonsCounts | src/components/EmailPreview.tsx:95-111 | the buttons show one label each and nothing else |
| EmailPreview.PreviewFrameCounts | src/components/EmailPreview.tsx:30-42 | the preview has one accent bar, one greeting, one body and one footer |
| EmailPreview.PreviewOptionalCounts | src/components/EmailPreview.tsx:115-182 | the preview has one bank block when there are bank details, and one attachment notice when the department attaches the PDF, else none |
| EmailPreview.PreviewContentCounts | src/components/EmailPreview.tsx:45-111 | the preview has a heading per non-empty heading, one list or paragraph per section, and a label per button |
| EmailPreview.PreviewKindCount | src/components/EmailPreview.tsx:20-190 | the count of a kind in the preview is the frame's, plus the sections', buttons' and optional blocks' |
| EmailPreview.ButtonLabelsShown | src/components/EmailPreview.tsx:95-111 | the button labels follow the sections, in button order |
| EmailPreview.BankBlockShown | src/components/EmailPreview.tsx:115-146 | with bank details, the bank block follows the buttons, with the title, the rows and the proof note when it is not empty |
| EmailPreview.AttachmentNoticeShown | src/components/EmailPreview.tsx:149-182 | with an attachment, the notice naming the PDF file comes just before the footer |
| EmailPreview.PreviewNamesFilled | src/components/EmailPreview.tsx:13-18 | the preview shows the greeting with the client's name (or "[client name]") and the body with the agent's name (or "[agent name]") |
| EmailPreview.ShapedPreviewNamesFilled | src/components/EmailPreview.tsx:13-18 | for any template with one placeholder in its greeting and one in its body, the preview shows the names (or their fallbacks) in their places and no brace is left in the body |
| EmailPreview.TablePreviewNamesFilled | src/components/EmailPreview.tsx:13-18 | for every department and language, the preview shows the names (or "[client name]" and "[agent name]") where the one placeholder of the greeting and of the body was, and no placeholder is left in the body |
| EmailPreview.SameListRule | src/components/EmailPreview.tsx:46-47 | the preview decides list or prose by the same rule as the email |
| Renderings.SameItems | src/components/EmailPreview.tsx:56-83 | the email shows as many bullets for a section as the preview lists items, and none for a paragraph |
| Renderings.EmptyHeadingDiffers | src/utils/emailHtml.ts:25 | for an empty heading the email emits a spacer row, while the preview emits no heading block |
| Renderings.EmptyProofNoteDiffers | src/utils/emailHtml.ts:73-77 | an empty proof note still leaves an empty note cell in the email, while the preview drops it |
| Renderings.EmailFallbackGreeting | src/utils/emailHtml.ts:11 | with no client name the email greets "[Client]" |
| Renderings.PreviewFallbackGreeting | src/components/EmailPreview.tsx:13-15 | with no client name the preview greets "[client name]" |
| Renderings.FallbacksDiffer | src/components/EmailPreview.tsx:13-15 | with no client name the email's greeting and the preview's differ |
| Renderings.SameTextForNames | src/components/EmailPreview.tsx:13-18 | with both names given, the email and the preview show the same greeting, and the same body up to `<br>` line breaks |
| SendEmail.Rank | api/sendEmail.js:23-35 | each required field has one place in the fixed order |
| SendEmail.MissingFieldNames | api/sendEmail.js:23-35 | the missing fields are exactly the falsy required ones, in the fixed order, and there are none exactly when all four are set |
| SendEmail.OwnSender | api/sendEmail.js:38-43 | only the four department identifiers have a sender |
| SendEmail.LookupSender | api/sendEmail.js:45-48 | an own-entries lookup finds a sender exactly for a department identifier; any address found is that department's |
| SendEmail.SenderLookupAsWritten | api/sendEmail.js:45 | as written, the lookup finds each department's address; for any other name it finds the inherited member of that name when there is one, and nothing otherwise |
| SendEmail.SenderFor | api/sendEmail.js:45-48 | the intended lookup finds a sender exactly for the four identifiers, and it is that department's address |
| SendEmail.OutgoingAttachment | api/sendEmail.js:59-68 | the attachment keeps its content; its file name and type default to "Application_Form.pdf" and "application/pdf"; its disposition is "attachment" |
| SendEmail.BuildPayload | api/sendEmail.js:51-68 | the payload goes to the client's address alone, from the sender named after the department, with the subject, the HTML as the one part, and an attachment exactly when one was given |
| SendEmail.SendResponse | api/sendEmail.js:70-105 | 200 with "Email sent successfully" exactly when the provider answered 202; otherwise 500 "Failed to send email", naming the provider's status or the thrown message |
| SendEmail.HandleWith | api/sendEmail.js:1-106 | for either lookup rule: at most one send, only for a POST with the key set and no required field missing; a send's response is the provider's answer; the status is always 200, 400, 405 or 500 |
| SendEmail.HandleAsWritten | api/sendEmail.js:45-48 | as written, a send is made only for a department identifier or for the name of an inherited member |
| SendEmail.Handle | api/sendEmail.js:1-106 | the corrected handler sends exactly when the request is accepted: a POST, the key set, every required field set, and a department identifier |
| SendEmail.OptionsFirst | api/sendEmail.js:7-9 | for either lookup rule, a preflight request is answered 200 with nothing sent |
| SendEmail.OtherMethodsRefused | api/sendEmail.js:11-13 | for either lookup rule, any method other than OPTIONS and POST is refused with 405 and nothing sent |
| SendEmail.MissingKeyBeforeFields | api/sendEmail.js:15-21 | for either lookup rule, without an API key a POST gets 500 with a message and nothing is sent, whatever its fields |
| SendEmail.MissingFieldsReported | api/sendEmail.js:23-35 | for either lookup rule, with a field missing, the answer is 400, lists exactly the missing fields, and nothing is sent |
| SendEmail.InvalidDepartmentRefused | api/sendEmail.js:45-48 | an unknown department is refused with 400 "Invalid department" and nothing is sent |
| SendEmail.OneSend | api/sendEmail.js:45-86 | an accepted request is sent exactly once, to the client alone, from the department's configured sender under its name, with the HTML as content, and the response follows the provider; a refused one is not sent |
| SendEmail.SenderMatchesDepartment | api/sendEmail.js:38-43 | the handler's sender for each department is the department table's sender address |
| SendEmail.AttachmentShape | api/sendEmail.js:59-68 | for either lookup rule, an accepted request without an attachment sends none; with one, it sends exactly one, with the defaults filled in |
| SendEmail.InheritedDepartmentSentAsWritten | api/sendEmail.js:45-48 | as written, department "toString" with all fields set is sent with an inherited function as the sender; the corrected handler refuses it as an invalid department |
| SendEmail.LookupsAgreeOnDepartments | api/sendEmail.js:45 | the two lookups differ only on the names of inherited members |
| SendEmail.AsWrittenAgreesForDepartments | api/sendEmail.js:45-48 | for a department's own identifier the handler as written and the corrected one answer alike |
| App.ValidEmailMatches | src/App.tsx:46 | an address the check accepts matches `^[^\s@]+@[^\s@]+\.[^\s@]+$` |
| App.MatchingIsValid | src/App.tsx:46 | an address matching the pattern is accepted by the check |
| App.EmailCheckIsPattern | src/App.tsx:46 | the address check accepts exactly what the pattern matches |
| App.SendForm.IsReady | src/App.tsx:97 | the form is ready exactly when the name and the address are not blank and an agent is selected |
| App.SendForm.ButtonDisabled | src/App.tsx:345 | the send button is disabled exactly while submitting, or when the name or the address is blank or no agent is selected |
| App.BuildRequest | src/App.tsx:56-79 | the posted body carries the address, subject, HTML, department and language, and the PDF attachment exactly when the department attaches one and its encoding is not empty |
| App.SendForm.constructor | src/App.tsx:21-27 | the form starts on Free SA in English with nothing entered, not submitting, with no notice and nothing posted |
| App.SendForm.SwitchDepartment | src/App.tsx:32-35 | switching department clears only the selected agent |
| App.SendForm.HandleSend | src/App.tsx:42-95 | not ready: the required-fields notice; a refused address: the invalid-address notice; either way nothing posted or changed. Otherwise exactly one request is posted while submitting; success clears the client's details and shows "Email sent to …"; a refused send shows the handler's error or "Failed to send email."; an unreachable handler shows the network notice; submitting ends every time. The request carries the template's subject for the form's department and language, and the PDF exactly for Firearms Guardian when its encoding is not empty; the department and the language are kept |
| App.SendForm.Submit | src/App.tsx:52-95 | the request is posted once while submitting; success shows "Email sent to …" and clears the name, the address and the agent; a refusal keeps them and shows the handler's error or "Failed to send email."; an unreachable handler shows the network notice; submitting ends every time |
| App.HtmlNonEmpty | src/App.tsx:54 | the rendered email is never empty |
| App.TableRequestParts | src/App.tsx:54-79 | for every department and language the subject and the rendered email are not empty |
| App.FormRequestAccepted | src/App.tsx:43-79 | a request the form posts with an accepted address, a subject and an email passes every check of the handler when the key is set |
| App.BuiltRequestSent | src/App.tsx:62-79 | a request built from a checked address, a subject and a non-empty rendering is sent once, to that address alone, from the named department's sender under its name, with the response the provider's answer gives |
| App.BuiltAttachmentSent | src/App.tsx:56-77 | such a request's email carries the PDF, as "Firearms_Guardian_Application_Form.pdf" of type "application/pdf", exactly when the attachment flag is set and the encoding is not empty |
| App.FormRequestSent | src/App.tsx:54-79 | the request the form posts for a department and a language, with its template's subject, is sent once, to the address the form checked, from that department's sender under its name, with the response the provider's answer gives |
| App.FormAttachmentSent | src/App.tsx:56-77 | the email sent for the form's request carries the PDF exactly for Firearms Guardian, when the encoding is not empty |
| PdfForm.FirstWord | src/utils/pdfGenerator.ts:143 | the first word of a line holds no space |
| PdfForm.WrapFromNonEmpty | src/utils/pdfGenerator.ts:143-159 | no wrapped line is empty |
| PdfForm.WrapFromFits | src/utils/pdfGenerator.ts:146-155 | every wrapped line fits the width or is a single word |
| PdfForm.WrapFromJoin | src/utils/pdfGenerator.ts:143-159 | the wrapped lines joined by single spaces give back the words joined by single spaces |
| PdfForm.WrapFromGreedy | src/utils/pdfGenerator.ts:146-155 | a line is broken only when the next word would not fit on it |
| PdfForm.WrapProperties | src/utils/pdfGenerator.ts:143-159 | the wrap of a text has no empty line, each line fits or is one word, and, when the text has no empty word, the lines give back the text and each is full |
| PdfForm.DeclarationItems | src/utils/pdfGenerator.ts:149-157 | the declaration's lines are drawn top down, 11 points apart, in the regular font at 7.5 points in gray |
| PdfForm.FormPage.FieldNames | src/utils/pdfGenerator.ts:7 | the names registered so far, in order |
| PdfForm.FormPage.constructor | src/utils/pdfGenerator.ts:9-28 | a new page has the red header band with its two title lines; the cursor is 72 points below the top; no field is registered |
| PdfForm.FormPage.DrawSection | src/utils/pdfGenerator.ts:38-44 | a section draws a red band and its title in upper case, and moves the cursor down 34 |
| PdfForm.FormPage.DrawLabel | src/utils/pdfGenerator.ts:46-48 | a label is drawn in bold gray at the cursor, and nothing else changes |
| PdfForm.FormPage.AddTextField | src/utils/pdfGenerator.ts:50-66 | a text field with a fresh name is registered at its place, and nothing else changes |
| PdfForm.FormPage.AddCheckBox | src/utils/pdfGenerator.ts:114-115 | a check box with a fresh name is registered at its place, and nothing else changes |
| PdfForm.FormPage.DrawHalfFields | src/utils/pdfGenerator.ts:50-66 | two labelled half-width fields side by side, then the cursor moves down one row |
| PdfForm.FormPage.DrawFullField | src/utils/pdfGenerator.ts:68-78 | one labelled full-width field, then the cursor moves down one row |
| PdfForm.FormPage.DrawProvince | src/utils/pdfGenerator.ts:89-98 | the province dropdown offers the ten options and starts on "Please select" |
| PdfForm.FormPage.DrawCoverChoice | src/utils/pdfGenerator.ts:111-136 | draws "Please select one:", the two cover options' price captions beside their check boxes and the debit-date label, in that order, and registers the two check boxes and the debit-date field |
| PdfForm.FormPage.DrawDeclarationLine | src/utils/pdfGenerator.ts:149-158 | one declaration line is drawn in regular gray at 7.5 points at the cursor, which then moves down the given step; no field changes |
| PdfForm.FormPage.DrawDeclaration | src/utils/pdfGenerator.ts:143-159 | the loop draws exactly the wrapped lines, 11 points apart; the cursor ends 11 points lower per flushed line and 18 below the last; no field changes |
| PdfForm.FormPage.DrawAgreement | src/utils/pdfGenerator.ts:161-166 | draws the agreement sentence beside its check box, registers the box, then the cursor moves down 30 |
| PdfForm.FormPage.DrawFooter | src/utils/pdfGenerator.ts:172-179 | the gray footer band with the company and contact lines |
| PdfForm.DrawPersonalDetails | src/utils/pdfGenerator.ts:80-85 | the personal-details section registers its five fields in order, each placed below its label (`PersonalFields`), and draws the section band and the five labels at their rows (`PersonalItems`); the cursor moves down the band and three rows |
| PdfForm.DrawAddress | src/utils/pdfGenerator.ts:86-98 | the street, suburb and city fields and the province dropdown follow the earlier fields at their places (`AddressFields`), with their four labels drawn (`AddressItems`) |
| PdfForm.DrawBankDetails | src/utils/pdfGenerator.ts:101-106 | the banking band, its four labels and its four fields follow at their places (`BankItems`, `BankFields`); the cursor moves a further 6 down |
| PdfForm.DrawCover | src/utils/pdfGenerator.ts:109-136 | the cover band, the prompt, the two price captions and the debit-date label are drawn, and the two check boxes and the debit-date field follow the earlier fields (`CoverItems`, `CoverFields`) |
| PdfForm.DrawDeclarationSection | src/utils/pdfGenerator.ts:139-166 | the declaration band is drawn, then the declaration's wrapped lines from 34 below it, then the agreement caption below the last line; the agreement box follows the earlier fields (`DeclarationSectionItems`, `DeclarationSectionFields`) |
| PdfForm.DrawSignature | src/utils/pdfGenerator.ts:169 | the signature and date labels are drawn and their fields complete the field list (`SignatureItems`, `SignatureFields`) |
| PdfForm.DrawApplicantDetails | src/utils/pdfGenerator.ts:80-106 | personal details, address and bank account, in that order: the page gets exactly their items and fields and the cursor moves down 368 |
| PdfForm.DrawClosing | src/utils/pdfGenerator.ts:139-169 | the declaration section then the signature row: the page gets exactly their items and fields, the signature row placed below the agreement box |
| PdfForm.GenerateFirearmsGuardianPdf | src/utils/pdfGenerator.ts:9-179 | the form registers its nineteen fields in order under four section titles, each at its place (`PageFields`); the drawing log is exactly the header band, each part's items from its starting height and the footer band (`PageItems`); the declaration is the wrap of its text; the cursor ends where the layout puts it |
| PdfForm.PageDeclaration | src/utils/pdfGenerator.ts:139-166 | on the finished page the declaration's lines are drawn from height 224 down, 11 points apart, right after the first 28 items, with the agreement caption just below the last line |
| PdfForm.FieldNamesDistinct | src/utils/pdfGenerator.ts:50-169 | the nineteen field names are distinct, so no registration fails |
| PdfForm.DeclWordsSplit | src/utils/pdfGenerator.ts:141-143 | the declaration splits into non-empty words |
| PdfForm.DeclarationLayout | src/utils/pdfGenerator.ts:141-159 | the declaration's lines give back its text, are each full, non-empty, and fit the width or are one word |
| PdfForm.ProvinceOptions | src/utils/pdfGenerator.ts:89-98 | ten distinct options, "Please select" first |

## Left out

- Network and environment. The real fetch to SendGrid and to the send handler, the `SENDGRID_API_KEY` environment variable and the clock are all parameters:
  - the handler receives the provider's outcome, the key and the timestamp;
  - `App.SendForm.HandleSend` receives the handler's reply.
- CORS headers and console logging in the handler are not modelled; they do not affect the answer.
- The toast timer in the form is not modelled, nor is the React rendering of the tab bar, inputs and selects.
- React events, rendering and styling are not modelled beyond the form state. The preview is an ordered list of blocks, not a DOM tree; colours and CSS classes appear only as the department colour each block carries.
- App.SendForm.HandleSend: takes the rendered email as the parameter `html` instead of calling `generateEmailHtml` itself. The contract states what is posted in terms of that parameter; `App.TableRequestParts` states the rendered email's properties separately.
- App.SendForm.HandleSend: the PDF's base64 text is an input string. The PDF bytes and the base64 encoding are not modelled. A failure while generating the PDF goes to the same catch branch as a network failure, and the model does not distinguish the two.
- App.FormRequestSent: stated for the corrected handler `SendEmail.Handle`. `SendEmail.AsWrittenAgreesForDepartments` carries it over to the handler as written, since the form only sends department identifiers.
- The PDF library is modelled as a log of drawn items plus a field registry:
  - fonts and the real rendering are not modelled;
  - text width is a parameter `width`;
  - `createTextField` rejecting a duplicate name becomes the precondition that the name is new.
- `pdfDoc.save()` and the bytes it produces are not modelled.
- Strings.ToUpper: upper-cases ASCII letters only. The section titles it is applied to are ASCII.
- SendEmail.RequestBody: each posted field is an optional string, and a field is truthy exactly when it is present and not empty. The model cannot represent other JSON values:
  - an array or a number as `department` (`["Free SA"]` is truthy and becomes the key "Free SA");
  - `0` or `false` as `subject`, which is falsy;
  - a missing request body, whose destructuring throws before the `try`.
- App.FormRequestSent, App.FormAttachmentSent: take the rendered email as a non-empty parameter `html` instead of computing `generateEmailHtml` again; `App.TableRequestParts` proves the rendering of every template is non-empty.
- The email's fixed markup and CSS are written out once (`EmailHtml.SourceMarkup`). The rendering lemmas hold for any markup text, and `EmailHtml.SourceRowsBulletFree` states the one fact about the real markup they need.
- `showBankDetails` is in the department table, but neither renderer reads it. Civil Society SA has it set although its templates have no bank details; the bank block follows the template alone.
- HTML escaping is not modelled. Neither renderer escapes inserted names, and the model inserts them verbatim as well.

## Findings

| source | as written | input that shows it | evidently intended | confidence | as-written member | corrected member |
|---|---|---|---|---|---|---|
| api/sendEmail.js:45-48 | `senderMap[department]` on a plain object literal also finds members every object inherits (`toString`, `constructor`, `__proto__`, …), which are truthy, so the "Invalid department" check lets them through and a send is attempted with a function as the sender address | a POST with the API key set and `clientEmail`, `subject` and `html` filled, with `department` = "toString" | only the four department identifiers find a sender; any other value is refused with 400 "Invalid department" | not executed | SendEmail.InheritedDepartmentSentAsWritten | SendEmail.SenderFor |
