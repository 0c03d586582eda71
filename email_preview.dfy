/**
 * The on-screen preview of an email: the same interpolation and list/prose
 * rule as the HTML email, with its own fallbacks, rendered as a sequence of
 * abstract blocks (styling is not modelled).
 */
module EmailPreview {
  import opened Wrappers
  import opened Strings
  import opened Departments
  import opened Templates
  import opened Content

  const ClientPlaceholderName: string := "[client name]"
  const AgentPlaceholderName: string := "[agent name]"

  /** The file the attachment notice names. */
  const AttachmentFileName: string := "Firearms_Guardian_Application_Form.pdf"
  const AttachmentCaption: string := "Fillable PDF attached"

  /** One bank row as shown: the label with a colon, then the value. */
  datatype BankCell = BankCell(key: string, value: string)

  /** What the preview shows, top to bottom. */
  datatype Block =
    | AccentBar(color: string)
    | GreetingLine(text: string)
    | BodyText(text: string)
    | Heading(text: string, color: string)
    | Bullets(items: seq<string>, color: string)
    | Paragraph(text: string)
    | ButtonLabel(text: string, color: string)
    | BankBlock(title: string, cells: seq<BankCell>, note: Option<string>)
    | AttachmentNotice(fileName: string, caption: string)
    | FooterBlock(closing: string, department: string, color: string)

  /** The greeting as the preview shows it, with "[client name]" for an empty name. */
  function PreviewGreeting(t: EmailTemplate, client: string): string {
    Greeting(t, Fallback(client, ClientPlaceholderName))
  }

  /** The body as the preview shows it; its newlines are kept (the text is shown pre-line). */
  function PreviewBody(t: EmailTemplate, client: string, agent: string): string {
    Body(t, Fallback(client, ClientPlaceholderName), Fallback(agent, AgentPlaceholderName))
  }

  /** A section's content: a bullet list of its lines, or the content verbatim. */
  function ContentBlock(content: string, color: string): (b: Block)
    ensures b.Bullets? <==> Classify(content).List?
    ensures b.Bullets? ==> b.items == Segments(content) && b.color == color
    ensures !b.Bullets? ==> b == Paragraph(content)
  {
    match Classify(content)
    case List(items) => Bullets(items, color)
    case Prose(text) => Paragraph(text)
  }

  /** A section: its heading only when the heading is non-empty, then its content. */
  function SectionBlocks(s: Section, color: string): (r: seq<Block>)
    ensures |r| == if s.heading == "" then 1 else 2
    ensures r[|r| - 1] == ContentBlock(s.content, color)
    ensures s.heading != "" ==> r[0] == Heading(s.heading, color)
    ensures forall h, c :: Heading(h, c) in r <==> s.heading != "" && h == s.heading && c == color
  {
    (if s.heading == "" then [] else [Heading(s.heading, color)]) + [ContentBlock(s.content, color)]
  }

  /** All sections, in order; nothing when the template has none. */
  function SectionsBlocks(ss: seq<Section>, color: string): (r: seq<Block>)
    ensures |ss| <= |r| <= 2 * |ss|
    decreases |ss|
  {
    if ss == [] then [] else SectionBlocks(ss[0], color) + SectionsBlocks(ss[1..], color)
  }

  /** A heading is among the sections' blocks exactly when some section has it as its non-empty heading. */
  lemma {:induction false} SectionsHeadings(ss: seq<Section>, color: string, h: string)
    ensures Heading(h, color) in SectionsBlocks(ss, color)
            <==> h != "" && exists i | 0 <= i < |ss| :: ss[i].heading == h
    decreases |ss|
  {
    if ss != [] {
      SectionsHeadings(ss[1..], color, h);
      if exists i | 0 <= i < |ss| :: ss[i].heading == h {
        var i :| 0 <= i < |ss| && ss[i].heading == h;
        if i > 0 {
          assert ss[1..][i - 1].heading == h;
        }
      }
      if exists i | 0 <= i < |ss[1..]| :: ss[1..][i].heading == h {
        var i :| 0 <= i < |ss[1..]| && ss[1..][i].heading == h;
        assert ss[i + 1].heading == h;
      }
    }
  }

  /** One label per button, in order; the preview shows no link. */
  function ButtonBlocks(bs: seq<Button>, color: string): (r: seq<Block>)
    ensures |r| == |bs|
    ensures forall i | 0 <= i < |bs| :: r[i] == ButtonLabel(bs[i].text, color)
  {
    seq(|bs|, i requires 0 <= i < |bs| => ButtonLabel(bs[i].text, color))
  }

  /** The bank rows, each label followed by a colon. */
  function BankCells(rows: seq<BankRow>): (r: seq<BankCell>)
    ensures |r| == |rows|
    ensures forall i | 0 <= i < |rows| :: r[i].key == rows[i].key + ":" && r[i].value == rows[i].value
  {
    seq(|rows|, i requires 0 <= i < |rows| => BankCell(rows[i].key + ":", rows[i].value))
  }

  /** The bank block when there are bank details; its note only when the note is non-empty. */
  function BankBlocks(bd: Option<BankDetails>): (r: seq<Block>)
    ensures bd.None? <==> r == []
    ensures bd.Some? ==> r == [BankBlock(bd.value.title, BankCells(bd.value.rows),
                                         if bd.value.proofNote == "" then None else Some(bd.value.proofNote))]
  {
    match bd
    case None => []
    case Some(d) => [BankBlock(d.title, BankCells(d.rows), if d.proofNote == "" then None else Some(d.proofNote))]
  }

  /** The attachment notice, for a department that sends the PDF form. */
  function AttachmentBlocks(config: DepartmentConfig): (r: seq<Block>)
    ensures config.hasAttachment <==> r != []
    ensures config.hasAttachment ==> r == [AttachmentNotice(AttachmentFileName, AttachmentCaption)]
  {
    if config.hasAttachment then [AttachmentNotice(AttachmentFileName, AttachmentCaption)] else []
  }

  /** The blocks between the greeting and the footer. */
  function MiddleBlocks(t: EmailTemplate, config: DepartmentConfig): seq<Block> {
    SectionsBlocks(t.sections.GetOr([]), config.color) + ButtonBlocks(t.buttons, config.color)
    + BankBlocks(t.bankDetails) + AttachmentBlocks(config)
  }

  /** The accent bar, the greeting and the body. */
  function PreviewHead(t: EmailTemplate, config: DepartmentConfig, client: string, agent: string): seq<Block> {
    [AccentBar(config.color), GreetingLine(PreviewGreeting(t, client)), BodyText(PreviewBody(t, client, agent))]
  }

  /** The footer: the closing phrase, then the department in the department's colour. */
  function PreviewTail(t: EmailTemplate, config: DepartmentConfig): seq<Block> {
    [FooterBlock(t.footer.closing, t.footer.department, config.color)]
  }

  /** `EmailPreview`: the blocks shown for a template, a department and the two names. */
  function Preview(t: EmailTemplate, config: DepartmentConfig, client: string, agent: string): (r: seq<Block>)
    ensures |r| >= 4
    ensures r[0] == AccentBar(config.color)
    ensures r[1] == GreetingLine(PreviewGreeting(t, client))
    ensures r[2] == BodyText(PreviewBody(t, client, agent))
    ensures r[|r| - 1] == FooterBlock(t.footer.closing, t.footer.department, config.color)
  {
    PreviewHead(t, config, client, agent) + MiddleBlocks(t, config) + PreviewTail(t, config)
  }

  // ---------------------------------------------------------------------------
  // Properties of the preview

  /** The kind of a block, without its contents. */
  datatype Kind = KAccent | KGreeting | KBody | KHeading | KBullets | KParagraph
                | KButton | KBank | KNotice | KFooter

  function KindOf(b: Block): Kind {
    match b
    case AccentBar(_) => KAccent
    case GreetingLine(_) => KGreeting
    case BodyText(_) => KBody
    case Heading(_, _) => KHeading
    case Bullets(_, _) => KBullets
    case Paragraph(_) => KParagraph
    case ButtonLabel(_, _) => KButton
    case BankBlock(_, _, _) => KBank
    case AttachmentNotice(_, _) => KNotice
    case FooterBlock(_, _, _) => KFooter
  }

  /** How many blocks of kind `k` there are. */
  function CountKind(bs: seq<Block>, k: Kind): (n: nat)
    ensures n <= |bs|
  {
    if bs == [] then 0 else (if KindOf(bs[0]) == k then 1 else 0) + CountKind(bs[1..], k)
  }

  lemma {:induction false} CountKindAppend(a: seq<Block>, b: seq<Block>, k: Kind)
    ensures CountKind(a + b, k) == CountKind(a, k) + CountKind(b, k)
    decreases |a|
  {
    if a == [] {
      assert a + b == b;
    } else {
      assert (a + b)[1..] == a[1..] + b;
      CountKindAppend(a[1..], b, k);
    }
  }

  lemma {:induction false} CountKindSingle(b: Block, k: Kind)
    ensures CountKind([b], k) == if KindOf(b) == k then 1 else 0
  {
    assert [b][1..] == [];
  }

  /** The number of sections with a non-empty heading. */
  function HeadedSections(ss: seq<Section>): (n: nat)
    ensures n <= |ss|
  {
    if ss == [] then 0 else (if ss[0].heading != "" then 1 else 0) + HeadedSections(ss[1..])
  }

  /** One section: a heading block when its heading is non-empty, and one list or paragraph. */
  lemma SectionBlockCount(s: Section, color: string, k: Kind)
    ensures CountKind(SectionBlocks(s, color), k)
            == (if k == KHeading && s.heading != "" then 1 else 0)
               + (if KindOf(ContentBlock(s.content, color)) == k then 1 else 0)
    ensures KindOf(ContentBlock(s.content, color)) in {KBullets, KParagraph}
  {
    var one := SectionBlocks(s, color);
    if s.heading != "" {
      assert one == [one[0]] + [one[1]];
      CountKindAppend([one[0]], [one[1]], k);
      CountKindSingle(one[0], k);
      CountKindSingle(one[1], k);
    } else {
      assert one == [one[0]];
      CountKindSingle(one[0], k);
    }
  }

  /** The sections give one heading per non-empty heading, and no blocks other than headings and contents. */
  lemma {:induction false} SectionsCounts(ss: seq<Section>, color: string, k: Kind)
    ensures k == KHeading ==> CountKind(SectionsBlocks(ss, color), k) == HeadedSections(ss)
    ensures k != KHeading && k != KBullets && k != KParagraph ==> CountKind(SectionsBlocks(ss, color), k) == 0
    decreases |ss|
  {
    if ss != [] {
      SectionsCounts(ss[1..], color, k);
      CountKindAppend(SectionBlocks(ss[0], color), SectionsBlocks(ss[1..], color), k);
      SectionBlockCount(ss[0], color, k);
    }
  }

  /** The sections give one content block, a list or a paragraph, per section. */
  lemma {:induction false} SectionsContentCount(ss: seq<Section>, color: string)
    ensures CountKind(SectionsBlocks(ss, color), KBullets) + CountKind(SectionsBlocks(ss, color), KParagraph) == |ss|
    decreases |ss|
  {
    if ss != [] {
      var one := SectionBlocks(ss[0], color);
      SectionsContentCount(ss[1..], color);
      CountKindAppend(one, SectionsBlocks(ss[1..], color), KBullets);
      CountKindAppend(one, SectionsBlocks(ss[1..], color), KParagraph);
      SectionBlockCount(ss[0], color, KBullets);
      SectionBlockCount(ss[0], color, KParagraph);
    }
  }

  /** The button labels are all of kind button. */
  lemma {:induction false} ButtonsCounts(bs: seq<Button>, color: string, k: Kind)
    ensures CountKind(ButtonBlocks(bs, color), k) == if k == KButton then |bs| else 0
    decreases |bs|
  {
    if bs != [] {
      assert ButtonBlocks(bs, color)[1..] == ButtonBlocks(bs[1..], color);
      ButtonsCounts(bs[1..], color, k);
    }
  }

  /** The preview has one accent bar, one greeting, one body and one footer. */
  lemma {:induction false} PreviewFrameCounts(t: EmailTemplate, config: DepartmentConfig, client: string, agent: string)
    ensures var r := Preview(t, config, client, agent);
      && CountKind(r, KAccent) == 1 && CountKind(r, KGreeting) == 1
      && CountKind(r, KBody) == 1 && CountKind(r, KFooter) == 1
  {
    var ss := t.sections.GetOr([]);
    SectionsCounts(ss, config.color, KAccent);
    SectionsCounts(ss, config.color, KGreeting);
    SectionsCounts(ss, config.color, KBody);
    SectionsCounts(ss, config.color, KFooter);
    PreviewKindCount(t, config, client, agent, KAccent);
    PreviewKindCount(t, config, client, agent, KGreeting);
    PreviewKindCount(t, config, client, agent, KBody);
    PreviewKindCount(t, config, client, agent, KFooter);
  }

  /**
   * The preview has one bank block exactly when there are bank details, and
   * one attachment notice exactly when the department sends the form.
   */
  lemma {:induction false} PreviewOptionalCounts(t: EmailTemplate, config: DepartmentConfig, client: string, agent: string)
    ensures var r := Preview(t, config, client, agent);
      && CountKind(r, KBank) == (if t.bankDetails.Some? then 1 else 0)
      && CountKind(r, KNotice) == (if config.hasAttachment then 1 else 0)
  {
    var ss := t.sections.GetOr([]);
    SectionsCounts(ss, config.color, KBank);
    SectionsCounts(ss, config.color, KNotice);
    PreviewKindCount(t, config, client, agent, KBank);
    PreviewKindCount(t, config, client, agent, KNotice);
  }

  /**
   * The preview has a heading per section with a non-empty heading, a content
   * block per section and a label per button.
   */
  lemma {:induction false} PreviewContentCounts(t: EmailTemplate, config: DepartmentConfig, client: string, agent: string)
    ensures var r := Preview(t, config, client, agent);
      var ss := t.sections.GetOr([]);
      && CountKind(r, KHeading) == HeadedSections(ss)
      && CountKind(r, KBullets) + CountKind(r, KParagraph) == |ss|
      && CountKind(r, KButton) == |t.buttons|
  {
    SectionsCounts(t.sections.GetOr([]), config.color, KHeading);
    SectionsCounts(t.sections.GetOr([]), config.color, KButton);
    SectionsContentCount(t.sections.GetOr([]), config.color);
    PreviewKindCount(t, config, client, agent, KHeading);
    PreviewKindCount(t, config, client, agent, KBullets);
    PreviewKindCount(t, config, client, agent, KParagraph);
    PreviewKindCount(t, config, client, agent, KButton);
  }

  /** The count of a kind in the preview: the frame's blocks, the sections', the buttons' and the optional ones. */
  lemma {:induction false} PreviewKindCount(t: EmailTemplate, config: DepartmentConfig, client: string, agent: string, k: Kind)
    ensures CountKind(Preview(t, config, client, agent), k)
         == (if k == KAccent || k == KGreeting || k == KBody || k == KFooter then 1 else 0)
          + CountKind(SectionsBlocks(t.sections.GetOr([]), config.color), k)
          + (if k == KButton then |t.buttons| else 0)
          + (if k == KBank && t.bankDetails.Some? then 1 else 0)
          + (if k == KNotice && config.hasAttachment then 1 else 0)
  {
    var ss := SectionsBlocks(t.sections.GetOr([]), config.color);
    var bs := ButtonBlocks(t.buttons, config.color);
    var bank := BankBlocks(t.bankDetails);
    var head := PreviewHead(t, config, client, agent);
    var mid := MiddleBlocks(t, config);
    ButtonsCounts(t.buttons, config.color, k);
    HeadTailCounts(t, config, client, agent, k);
    OptionalCounts(t, config, k);
    CountKindAppend(head, mid, k);
    CountKindAppend(head + mid, PreviewTail(t, config), k);
    CountKindAppend(ss, bs, k);
    CountKindAppend(ss + bs, bank, k);
    CountKindAppend(ss + bs + bank, AttachmentBlocks(config), k);
  }

  /** The bank block and the attachment notice are there at most once each. */
  lemma {:induction false} OptionalCounts(t: EmailTemplate, config: DepartmentConfig, k: Kind)
    ensures CountKind(BankBlocks(t.bankDetails), k) == if k == KBank && t.bankDetails.Some? then 1 else 0
    ensures CountKind(AttachmentBlocks(config), k) == if k == KNotice && config.hasAttachment then 1 else 0
  {
    if t.bankDetails.Some? {
      CountKindSingle(BankBlocks(t.bankDetails)[0], k);
    }
    if config.hasAttachment {
      CountKindSingle(AttachmentBlocks(config)[0], k);
    }
  }

  /** The head is an accent bar, a greeting and a body; the tail is the footer. */
  lemma {:induction false} HeadTailCounts(t: EmailTemplate, config: DepartmentConfig, client: string, agent: string, k: Kind)
    ensures CountKind(PreviewHead(t, config, client, agent), k)
            == if k == KAccent || k == KGreeting || k == KBody then 1 else 0
    ensures CountKind(PreviewTail(t, config), k) == if k == KFooter then 1 else 0
  {
    HeadCount(config.color, PreviewGreeting(t, client), PreviewBody(t, client, agent), k);
    CountKindSingle(FooterBlock(t.footer.closing, t.footer.department, config.color), k);
  }

  /** An accent bar, a greeting and a body count once each, under their own kinds. */
  lemma {:induction false} HeadCount(color: string, greeting: string, body: string, k: Kind)
    ensures CountKind([AccentBar(color), GreetingLine(greeting), BodyText(body)], k)
            == if k == KAccent || k == KGreeting || k == KBody then 1 else 0
  {
    var x, y, z := AccentBar(color), GreetingLine(greeting), BodyText(body);
    assert [x, y, z] == [x] + [y] + [z];
    CountKindAppend([x] + [y], [z], k);
    CountKindAppend([x], [y], k);
    CountKindSingle(x, k);
    CountKindSingle(y, k);
    CountKindSingle(z, k);
  }

  /** An element of the middle part of a concatenation, indexed from the start of that part. */
  lemma {:induction false} MiddleAt<T>(a: seq<T>, b: seq<T>, c: seq<T>, i: nat)
    requires i < |b|
    ensures |a| + i < |a + b + c| && (a + b + c)[|a| + i] == b[i]
  {
  }

  /** The buttons appear as their labels, in template order, right after the sections. */
  lemma {:induction false} ButtonLabelsShown(t: EmailTemplate, config: DepartmentConfig, client: string, agent: string)
    ensures var r := Preview(t, config, client, agent);
      var k := 3 + |SectionsBlocks(t.sections.GetOr([]), config.color)|;
      && k + |t.buttons| <= |r|
      && forall i | 0 <= i < |t.buttons| :: r[k + i] == ButtonLabel(t.buttons[i].text, config.color)
  {
    var ss := SectionsBlocks(t.sections.GetOr([]), config.color);
    var bs := ButtonBlocks(t.buttons, config.color);
    var head := PreviewHead(t, config, client, agent);
    PreviewParts(t, config, client, agent);
    ButtonsAfter(Preview(t, config, client, agent), head, ss, bs, BankBlocks(t.bankDetails),
                 AttachmentBlocks(config), PreviewTail(t, config), t.buttons, config.color);
  }

  /** The preview is its head, its four middle parts and its tail. */
  lemma {:induction false} PreviewParts(t: EmailTemplate, config: DepartmentConfig, client: string, agent: string)
    ensures Preview(t, config, client, agent)
            == PreviewHead(t, config, client, agent)
               + (SectionsBlocks(t.sections.GetOr([]), config.color) + ButtonBlocks(t.buttons, config.color)
                  + BankBlocks(t.bankDetails) + AttachmentBlocks(config))
               + PreviewTail(t, config)
    ensures |PreviewHead(t, config, client, agent)| == 3
  {
  }

  /** The button labels of a preview put together from its parts sit right after the head and the sections. */
  lemma {:induction false} ButtonsAfter(r: seq<Block>, head: seq<Block>, ss: seq<Block>, bs: seq<Block>,
                                        bank: seq<Block>, att: seq<Block>, tail: seq<Block>,
                                        buttons: seq<Button>, color: string)
    requires r == head + (ss + bs + bank + att) + tail
    requires |bs| == |buttons| && forall i | 0 <= i < |bs| :: bs[i] == ButtonLabel(buttons[i].text, color)
    ensures |head| + |ss| + |buttons| <= |r|
    ensures forall i | 0 <= i < |buttons| :: r[|head| + |ss| + i] == ButtonLabel(buttons[i].text, color)
  {
    forall i | 0 <= i < |buttons|
      ensures r[|head| + |ss| + i] == ButtonLabel(buttons[i].text, color)
    {
      SecondOfMiddle(head, ss, bs, bank, att, tail, i);
    }
  }

  /** An element of the second of four parts between a head and a tail. */
  lemma {:induction false} SecondOfMiddle<T>(head: seq<T>, a: seq<T>, b: seq<T>, c: seq<T>, d: seq<T>, tail: seq<T>, i: nat)
    requires i < |b|
    ensures |head| + |a| + i < |head + (a + b + c + d) + tail|
    ensures (head + (a + b + c + d) + tail)[|head| + |a| + i] == b[i]
  {
    MiddleAt(a, b, c + d, i);
    assert a + b + c + d == a + b + (c + d);
    MiddleAt(head, a + b + c + d, tail, |a| + i);
  }

  /**
   * After the button labels comes the bank block, when there are bank details:
   * its title, the rows with their labels followed by a colon, and the proof
   * note only when the note is non-empty.
   */
  lemma {:induction false} BankBlockShown(t: EmailTemplate, config: DepartmentConfig, client: string, agent: string)
    requires t.bankDetails.Some?
    ensures var r := Preview(t, config, client, agent);
      var k := 3 + |SectionsBlocks(t.sections.GetOr([]), config.color)| + |t.buttons|;
      var d := t.bankDetails.value;
      && k < |r|
      && r[k] == BankBlock(d.title, BankCells(d.rows), if d.proofNote == "" then None else Some(d.proofNote))
  {
    var ss := SectionsBlocks(t.sections.GetOr([]), config.color);
    var bs := ButtonBlocks(t.buttons, config.color);
    var head := PreviewHead(t, config, client, agent);
    PreviewParts(t, config, client, agent);
    ThirdOfMiddle(head, ss, bs, BankBlocks(t.bankDetails), AttachmentBlocks(config), PreviewTail(t, config), 0);
  }

  /** An element of the third of four parts between a head and a tail. */
  lemma {:induction false} ThirdOfMiddle<T>(head: seq<T>, a: seq<T>, b: seq<T>, c: seq<T>, d: seq<T>, tail: seq<T>, i: nat)
    requires i < |c|
    ensures |head| + |a| + |b| + i < |head + (a + b + c + d) + tail|
    ensures (head + (a + b + c + d) + tail)[|head| + |a| + |b| + i] == c[i]
  {
    MiddleAt(a + b, c, d, i);
    MiddleAt(head, a + b + c + d, tail, |a| + |b| + i);
  }

  /** The attachment notice, naming the form's file, comes just before the footer. */
  lemma {:induction false} AttachmentNoticeShown(t: EmailTemplate, config: DepartmentConfig, client: string, agent: string)
    requires config.hasAttachment
    ensures var r := Preview(t, config, client, agent);
      r[|r| - 2] == AttachmentNotice("Firearms_Guardian_Application_Form.pdf", "Fillable PDF attached")
  {
    var mid := MiddleBlocks(t, config);
    var head := PreviewHead(t, config, client, agent);
    var tail := PreviewTail(t, config);
    assert mid[|mid| - 1] == AttachmentNotice(AttachmentFileName, AttachmentCaption);
    MiddleAt(head, mid, tail, |mid| - 1);
  }

  /** With one placeholder in the greeting and in the body, the preview shows the names (or their fallbacks) in their places. */
  lemma {:induction false} PreviewNamesFilled(t: EmailTemplate, client: string, agent: string,
                                              a: string, b: string, c: string, e: string)
    requires PlaceholderAt(t.greeting, ClientToken, a, b)
    requires PlaceholderAt(t.body, AgentToken, c, e)
    requires '$' !in client && '$' !in agent && '{' !in agent
    ensures PreviewGreeting(t, client) == a + Fallback(client, ClientPlaceholderName) + b
    ensures PreviewBody(t, client, agent) == c + Fallback(agent, AgentPlaceholderName) + e
    ensures client == "" ==> PreviewGreeting(t, client) == a + "[client name]" + b
    ensures agent == "" ==> PreviewBody(t, client, agent) == c + "[agent name]" + e
  {
    GreetingFilled(t, Fallback(client, ClientPlaceholderName), a, b);
    BodyFilled(t, Fallback(client, ClientPlaceholderName), Fallback(agent, AgentPlaceholderName), c, e);
  }

  /**
   * For every department and language, the preview shows the template's
   * greeting and body with the names (or "[client name]" and "[agent name]")
   * where their one placeholder was, and no placeholder left in the body.
   */
  lemma TablePreviewNamesFilled(d: Department, l: Language, client: string, agent: string)
    requires '$' !in client && '$' !in agent && '{' !in agent
    ensures var t := GetTemplate(d, l);
      exists a, b, c, e ::
        && PlaceholderAt(t.greeting, ClientToken, a, b) && PlaceholderAt(t.body, AgentToken, c, e)
        && PreviewGreeting(t, client) == a + Fallback(client, ClientPlaceholderName) + b
        && PreviewBody(t, client, agent) == c + Fallback(agent, AgentPlaceholderName) + e
    ensures '{' !in PreviewBody(GetTemplate(d, l), client, agent)
  {
    TableShape(d, l);
    ShapedPreviewNamesFilled(GetTemplate(d, l), client, agent);
  }

  /** `PreviewNamesFilled` for any template with one placeholder in its greeting and one in its body. */
  lemma {:induction false} ShapedPreviewNamesFilled(t: EmailTemplate, client: string, agent: string)
    requires OnePlaceholder(t.greeting, ClientToken) && OnePlaceholder(t.body, AgentToken)
    requires '$' !in client && '$' !in agent && '{' !in agent
    ensures exists a, b, c, e ::
        && PlaceholderAt(t.greeting, ClientToken, a, b) && PlaceholderAt(t.body, AgentToken, c, e)
        && PreviewGreeting(t, client) == a + Fallback(client, ClientPlaceholderName) + b
        && PreviewBody(t, client, agent) == c + Fallback(agent, AgentPlaceholderName) + e
    ensures '{' !in PreviewBody(t, client, agent)
  {
    var a, b :| PlaceholderAt(t.greeting, ClientToken, a, b);
    var c, e :| PlaceholderAt(t.body, AgentToken, c, e);
    PreviewNamesFilled(t, client, agent, a, b, c, e);
    BodyFilled(t, Fallback(client, ClientPlaceholderName), Fallback(agent, AgentPlaceholderName), c, e);
  }

  /** The preview decides list or prose by the same rule as the email, and its list items are the content's non-empty lines. */
  lemma {:induction false} SameListRule(s: Section, color: string)
    ensures var b := SectionBlocks(s, color)[|SectionBlocks(s, color)| - 1];
      && (b.Bullets? <==> |Segments(s.content)| > 1 && !Contains(s.content, ". "))
      && (b.Bullets? ==> b.items == Segments(s.content))
      && (b.Paragraph? ==> b.text == s.content)
  {
  }
}
