/**
 * The HTML email: the interpolated greeting and body, each section as a
 * heading row followed by list rows or a prose cell, the call-to-action
 * buttons, the optional bank-details table, the sign-off and the "Sent by"
 * line, all inside one fixed document. Inserted values are not HTML-escaped.
 *
 * The layout tables and their inline CSS are the fixed text between the
 * inserted values. The renderer takes that text as a `Markup` value and is
 * proved correct for any of them; `SourceMarkup` is the text the email uses,
 * and `GenerateEmailHtml` renders with it.
 */
module EmailHtml {
  import opened Wrappers
  import opened Strings
  import opened Departments
  import opened Templates
  import opened Content

  /** The fixed text of the email, piece by piece, in the order it is emitted. */
  datatype Markup = Markup(
    font: string,
    headingOpen: string, headingStyle: string, headingClose: string,
    itemOpen: string, itemMid: string, itemMark: string, itemClose: string,
    proseOpen: string, proseMid: string, proseClose: string,
    buttonStyle: string, buttonFont: string, buttonTextOpen: string,
    rowOpen: string, rowKeyOpen: string, rowValueOpen: string, rowClose: string,
    bankOpen: string, bankTitleClose: string, bankNoteOpen: string, bankNoteCell: string,
    bankClose: string,
    docHead: string, docFrameOpen: string, docGreetingOpen: string, docBodyOpen: string,
    docBodyCell: string, docSectionsOpen: string, docButtonsOpen: string, docBankOpen: string,
    docFooterOpen: string, docFooterCell: string, docStrongOpen: string,
    docSubFooterOpen: string, docSentByCell: string, docTail: string)

  /** The list marker, `&#8226;` (a bullet). */
  const Bullet: string := "&#8226;"

  const ClientFallback: string := "[Client]"
  const AgentFallback: string := "[Agent]"

  // ---------------------------------------------------------------------------
  // Section heading

  /** The empty row that stands in for a missing heading. */
  const SpacerRow: string := "<tr><td " + "style=\"paddi" + "ng:12px 0 0 " + "0;\"></td></t" + "r>"

  lemma SpacerHasNoHeading()
    ensures !Contains(SpacerRow, "<h3")
  {
    NoOccurrenceWithout(SpacerRow, "<h3", 1);
  }

  /** A heading row with an `<h3>` in the department colour, or the spacer row when the heading is empty. */
  function HeadingHtml(m: Markup, heading: string, color: string): (r: string)
    ensures Contains(r, "<h3") <==> heading != ""
    ensures heading == "" ==> r == SpacerRow
    ensures heading != "" ==> Contains(r, ";\">" + heading + "</h3>")
  {
    if heading != "" then
      var tail := m.headingStyle + color + ";font-family:" + m.font;
      var r := m.headingOpen + "<h3" + tail + (";\">" + heading + "</h3>") + m.headingClose;
      assert r == m.headingOpen + "<h3" + (tail + (";\">" + heading + "</h3>") + m.headingClose);
      AtMiddle(m.headingOpen, "<h3", tail + (";\">" + heading + "</h3>") + m.headingClose);
      AtMiddle(m.headingOpen + "<h3" + tail, ";\">" + heading + "</h3>", m.headingClose);
      r
    else
      SpacerHasNoHeading();
      SpacerRow
  }

  // ---------------------------------------------------------------------------
  // Section content

  /** One list row: a bullet in the department colour, then the line as it is. */
  function ItemHtml(m: Markup, line: string, color: string): (r: string)
    ensures Contains(r, Bullet + "</span>" + line)
  {
    var pre := m.itemOpen + m.font + m.itemMid + color + m.itemMark;
    AtMiddle(pre, Bullet + "</span>" + line, m.itemClose);
    pre + (Bullet + "</span>" + line) + m.itemClose
  }

  /** The list rows, one per line, in order. */
  function ListRows(m: Markup, items: seq<string>, color: string): (rows: seq<string>)
    ensures |rows| == |items|
    ensures forall i | 0 <= i < |items| :: rows[i] == ItemHtml(m, items[i], color)
  {
    seq(|items|, i requires 0 <= i < |items| => ItemHtml(m, items[i], color))
  }

  /** The rendering of a text with every newline turned into `<br>`. */
  function Breaks(text: string): (r: string)
    ensures '\n' !in r
    ensures r == Join(Split(text, '\n'), "<br>")
  {
    ReplaceAllIsSplitJoin(text, '\n', "<br>");
    ReplaceAll(text, '\n', "<br>")
  }

  /** A section's content: list rows when it classifies as a list, else one prose cell. */
  function ContentHtml(m: Markup, content: string, color: string): (r: string)
    ensures Classify(content).Prose? ==> Contains(r, Breaks(content))
  {
    match Classify(content)
    case List(items) => Concat(ListRows(m, items, color))
    case Prose(text) =>
      AtMiddle(m.proseOpen + m.font + m.proseMid, Breaks(text), m.proseClose);
      m.proseOpen + m.font + m.proseMid + Breaks(text) + m.proseClose
  }

  /**
   * A list section is one row per non-empty line, in order, each row holding
   * the bullet followed by its line.
   */
  lemma {:induction false} ListSectionRows(m: Markup, content: string, color: string)
    requires Classify(content).List?
    ensures var rows := ListRows(m, Segments(content), color);
      && ContentHtml(m, content, color) == Concat(rows)
      && |rows| == |Segments(content)|
      && forall i | 0 <= i < |rows| :: Contains(rows[i], Bullet + "</span>" + Segments(content)[i])
  {
  }

  /** The rows of a list section follow the order of its lines. */
  lemma {:induction false} ContentRowsInOrder(m: Markup, content: string, color: string, i: nat, j: nat)
    requires Classify(content).List? && i < j < |Segments(content)|
    ensures Before(ContentHtml(m, content, color),
                   ItemHtml(m, Segments(content)[i], color), ItemHtml(m, Segments(content)[j], color))
  {
    ConcatBefore(ListRows(m, Segments(content), color), i, j);
  }

  /** The fixed text of list and prose rows holds no ampersand, so no bullet of its own. */
  ghost predicate RowsBulletFree(m: Markup) {
    && '&' !in m.font && '&' !in m.itemOpen && '&' !in m.itemMid && '&' !in m.itemMark
    && '&' !in m.itemClose && '&' !in m.proseOpen && '&' !in m.proseMid && '&' !in m.proseClose
  }

  /** A list row whose values hold no ampersand adds exactly one bullet. */
  lemma {:induction false} ItemBullet(m: Markup, line: string, color: string, rest: string)
    requires RowsBulletFree(m) && '&' !in line && '&' !in color
    ensures Count(ItemHtml(m, line, color) + rest, Bullet) == 1 + Count(rest, Bullet)
  {
    var pre := m.itemOpen + m.font + m.itemMid + color + m.itemMark;
    var post := "</span>" + line + m.itemClose;
    assert ItemHtml(m, line, color) + rest == pre + (Bullet + (post + rest));
    CountSkip(pre, Bullet + (post + rest), Bullet);
    CountLead(Bullet, post + rest);
    CountSkip(post, rest, Bullet);
  }

  /** `n` ampersand-free lines give exactly `n` bullets. */
  lemma {:induction false} ListBulletCount(m: Markup, items: seq<string>, color: string)
    requires RowsBulletFree(m)
    requires forall i | 0 <= i < |items| :: '&' !in items[i]
    requires '&' !in color
    ensures Count(Concat(ListRows(m, items, color)), Bullet) == |items|
    decreases |items|
  {
    var rows := ListRows(m, items, color);
    if items != [] {
      assert rows[1..] == ListRows(m, items[1..], color);
      ListBulletCount(m, items[1..], color);
      ItemBullet(m, items[0], color, Concat(rows[1..]));
    }
  }

  /**
   * A list section carries exactly one bullet per non-empty line and a prose
   * section none, when neither the content nor the colour holds an ampersand.
   */
  lemma {:induction false} ContentBullets(m: Markup, content: string, color: string)
    requires RowsBulletFree(m) && '&' !in content && '&' !in color
    ensures Count(ContentHtml(m, content, color), Bullet)
         == if Classify(content).List? then |Segments(content)| else 0
  {
    match Classify(content)
    case List(items) =>
      SplitPiecesWithin(content, '\n', '&');
      var pieces := Split(content, '\n');
      assert forall i | 0 <= i < |items| :: items[i] in pieces;
      ListBulletCount(m, items, color);
    case Prose(text) =>
      ReplaceAllKeeps(text, '\n', "<br>", '&');
      CountNone(m.proseOpen + m.font + m.proseMid + Breaks(text) + m.proseClose, Bullet);
  }

  /** A section: its heading row, then its content. */
  function SectionHtml(m: Markup, s: Section, color: string): (r: string)
    ensures StartsWith(r, HeadingHtml(m, s.heading, color))
    ensures EndsWith(r, ContentHtml(m, s.content, color))
  {
    var h := HeadingHtml(m, s.heading, color);
    var c := ContentHtml(m, s.content, color);
    assert (h + c)[..|h|] == h;
    assert (h + c)[|h + c| - |c|..] == c;
    h + c
  }

  function SectionRows(m: Markup, ss: seq<Section>, color: string): (rows: seq<string>)
    ensures |rows| == |ss|
    ensures forall i | 0 <= i < |ss| :: rows[i] == SectionHtml(m, ss[i], color)
  {
    seq(|ss|, i requires 0 <= i < |ss| => SectionHtml(m, ss[i], color))
  }

  /** All sections, in order; nothing when the template has none. */
  function SectionsHtml(m: Markup, sections: Option<seq<Section>>, color: string): (r: string)
    ensures sections.None? ==> r == ""
    ensures sections.Some? ==> forall i | 0 <= i < |sections.value| :: Contains(r, SectionHtml(m, sections.value[i], color))
  {
    match sections
    case None => ""
    case Some(ss) =>
      var rows := SectionRows(m, ss, color);
      forall i | 0 <= i < |ss| ensures Contains(Concat(rows), SectionHtml(m, ss[i], color)) {
        ConcatAt(rows, i);
      }
      Concat(rows)
  }

  /** Sections are rendered in template order. */
  lemma {:induction false} SectionsInOrder(m: Markup, ss: seq<Section>, color: string, i: nat, j: nat)
    requires i < j < |ss|
    ensures Before(SectionsHtml(m, Some(ss), color), SectionHtml(m, ss[i], color), SectionHtml(m, ss[j], color))
  {
    ConcatBefore(SectionRows(m, ss, color), i, j);
  }

  // ---------------------------------------------------------------------------
  // Buttons

  /** A button: a link opening in a new window, labelled with the button's text. */
  function ButtonHtml(m: Markup, b: Button, color: string): (r: string)
    ensures StartsWith(r, "\n    <a href=\"" + b.link + "\" target=\"_blank\"")
    ensures EndsWith(r, ">" + b.text + "</a>")
  {
    var open := "\n    <a href=\"" + b.link + "\" target=\"_blank\"";
    var style := m.buttonStyle + color + m.buttonFont + m.font + m.buttonTextOpen;
    var close := ">" + b.text + "</a>";
    var r := open + style + close;
    assert r[..|open|] == open;
    assert r[|r| - |close|..] == close;
    r
  }

  function ButtonRows(m: Markup, bs: seq<Button>, color: string): (rows: seq<string>)
    ensures |rows| == |bs|
    ensures forall i | 0 <= i < |bs| :: rows[i] == ButtonHtml(m, bs[i], color)
  {
    seq(|bs|, i requires 0 <= i < |bs| => ButtonHtml(m, bs[i], color))
  }

  /** All buttons, run together. */
  function ButtonsHtml(m: Markup, bs: seq<Button>, color: string): (r: string)
    ensures forall i | 0 <= i < |bs| :: Contains(r, ButtonHtml(m, bs[i], color))
    ensures bs == [] ==> r == ""
  {
    var rows := ButtonRows(m, bs, color);
    forall i | 0 <= i < |bs| ensures Contains(Concat(rows), ButtonHtml(m, bs[i], color)) {
      ConcatAt(rows, i);
    }
    Concat(rows)
  }

  /** Buttons are rendered in template order. */
  lemma {:induction false} ButtonsInOrder(m: Markup, bs: seq<Button>, color: string, i: nat, j: nat)
    requires i < j < |bs|
    ensures Before(ButtonsHtml(m, bs, color), ButtonHtml(m, bs[i], color), ButtonHtml(m, bs[j], color))
  {
    ConcatBefore(ButtonRows(m, bs, color), i, j);
  }

  // ---------------------------------------------------------------------------
  // Bank details

  /** One bank row: the label with a colon, then the value. */
  function BankRowHtml(m: Markup, row: BankRow): (r: string)
    ensures Before(r, ">" + row.key + ":</span>", ">" + row.value + "</span>")
  {
    var a := m.rowOpen + m.font + m.rowKeyOpen;
    var key := ">" + row.key + ":</span>";
    var value := ">" + row.value + "</span>";
    BeforeMiddle(a, key, m.rowValueOpen, value, m.rowClose);
    a + key + m.rowValueOpen + value + m.rowClose
  }

  function BankRowRows(m: Markup, rows: seq<BankRow>): (r: seq<string>)
    ensures |r| == |rows|
    ensures forall i | 0 <= i < |rows| :: r[i] == BankRowHtml(m, rows[i])
  {
    seq(|rows|, i requires 0 <= i < |rows| => BankRowHtml(m, rows[i]))
  }

  /** The table's title row. */
  function BankTitleHtml(m: Markup, title: string): string {
    m.bankOpen + m.font + ";\">" + title + m.bankTitleClose
  }

  /** The cell of the proof-of-payment note, with the note inside. */
  function BankNoteHtml(m: Markup, note: string): string {
    m.bankNoteOpen + m.font + m.bankNoteCell + note + m.bankClose
  }

  /**
   * The bank-details block: nothing without bank details; otherwise the title,
   * the rows and then the cell of the proof-of-payment note, which is emitted
   * even when the note is empty.
   */
  function BankHtml(m: Markup, bd: Option<BankDetails>): (r: string)
    ensures bd.None? ==> r == ""
    ensures bd.Some? ==> Before(r, bd.value.title, Concat(BankRowRows(m, bd.value.rows)))
    ensures bd.Some? ==> Before(r, Concat(BankRowRows(m, bd.value.rows)),
                                m.bankNoteOpen + m.font + m.bankNoteCell + bd.value.proofNote)
  {
    match bd
    case None => ""
    case Some(d) =>
      var rows := Concat(BankRowRows(m, d.rows));
      var head := BankTitleHtml(m, d.title);
      var cell := m.bankNoteOpen + m.font + m.bankNoteCell + d.proofNote;
      BeforeMiddle(m.bankOpen + m.font + ";\">", d.title, m.bankTitleClose, rows, BankNoteHtml(m, d.proofNote));
      BeforeMiddle(head, rows, "", cell, m.bankClose);
      assert head + rows + "" + cell + m.bankClose == head + rows + BankNoteHtml(m, d.proofNote);
      head + rows + BankNoteHtml(m, d.proofNote)
  }

  /** The bank rows are rendered in table order. */
  lemma {:induction false} BankRowsInOrder(m: Markup, d: BankDetails, i: nat, j: nat)
    requires i < j < |d.rows|
    ensures Before(BankHtml(m, Some(d)), BankRowHtml(m, d.rows[i]), BankRowHtml(m, d.rows[j]))
  {
    var rows := BankRowRows(m, d.rows);
    ConcatBefore(rows, i, j);
    BeforeInfix(BankTitleHtml(m, d.title), Concat(rows), BankNoteHtml(m, d.proofNote),
                BankRowHtml(m, d.rows[i]), BankRowHtml(m, d.rows[j]));
  }

  // ---------------------------------------------------------------------------
  // The document

  /** The greeting as the email shows it, with "[Client]" for an empty name. */
  function HtmlGreeting(t: EmailTemplate, client: string): (r: string)
    ensures !Contains(t.greeting, ClientToken) ==> r == t.greeting
  {
    Greeting(t, Fallback(client, ClientFallback))
  }

  /** The body as the email shows it, with the fallbacks and `<br>` for each newline. */
  function HtmlBody(t: EmailTemplate, client: string, agent: string): (r: string)
    ensures '\n' !in r
  {
    Breaks(Body(t, Fallback(client, ClientFallback), Fallback(agent, AgentFallback)))
  }

  /** The doctype, the head and the top of the layout, down to the colour bar. */
  function DocumentHead(m: Markup, color: string): (r: string)
    ensures StartsWith(r, "<!DOCTYPE html>")
  {
    StartsWithFirst("<!DOCTYPE html>", m.docHead + m.font + m.docFrameOpen + color);
    "<!DOCTYPE html>" + (m.docHead + m.font + m.docFrameOpen + color)
  }

  /** The greeting row: the greeting as an `<h2>`. */
  function GreetingCell(m: Markup, greeting: string): (r: string)
    ensures EndsWith(r, greeting)
  {
    EndsWithLast(m.docGreetingOpen + m.font + ";\">", greeting);
    m.docGreetingOpen + m.font + ";\">" + greeting
  }

  /** The body row. */
  function BodyCell(m: Markup, body: string): (r: string)
    ensures EndsWith(r, body)
  {
    EndsWithLast(m.docBodyOpen + m.font + m.docBodyCell, body);
    m.docBodyOpen + m.font + m.docBodyCell + body
  }

  /** The sign-off: the closing phrase, then the department's name in its colour. */
  function FooterCell(m: Markup, footer: Footer, color: string): (r: string)
    ensures Before(r, footer.closing, footer.department)
  {
    var a := m.docFooterOpen + m.font + m.docFooterCell;
    var strong := m.docStrongOpen + color + ";\">";
    BeforeMiddle(a, footer.closing, strong, footer.department, "");
    assert a + footer.closing + strong + footer.department + "" == a + footer.closing + strong + footer.department;
    a + footer.closing + strong + footer.department
  }

  /** The sub-footer with the "Sent by" line, and the end of the document. */
  function SubFooter(m: Markup, fullName: string): (r: string)
    ensures Contains(r, "Sent by " + fullName)
    ensures EndsWith(r, "</html>")
  {
    var a := m.docSubFooterOpen + m.font + m.docSentByCell;
    AtMiddle(a, "Sent by " + fullName, m.docTail + "</html>");
    EndsWithLast(a + ("Sent by " + fullName) + m.docTail, "</html>");
    a + ("Sent by " + fullName) + (m.docTail + "</html>")
  }

  /** The pieces of the document around the rendered greeting, body, sections, buttons and bank block. */
  function LayoutParts(m: Markup, color: string, greeting: string, body: string, sections: string,
                       buttons: string, bank: string, footer: Footer, fullName: string)
    : (parts: seq<string>)
    ensures |parts| == 11
  {
    [DocumentHead(m, color), GreetingCell(m, greeting), BodyCell(m, body),
     m.docSectionsOpen, sections, m.docButtonsOpen, buttons, m.docBankOpen, bank,
     FooterCell(m, footer, color), SubFooter(m, fullName)]
  }

  /**
   * The document around its rendered parts: it starts with the doctype, ends
   * with `</html>` and names the full name in its "Sent by" line.
   */
  function Layout(m: Markup, color: string, greeting: string, body: string, sections: string,
                  buttons: string, bank: string, footer: Footer, fullName: string)
    : (r: string)
    ensures StartsWith(r, "<!DOCTYPE html>")
    ensures EndsWith(r, "</html>")
    ensures Contains(r, "Sent by " + fullName)
  {
    var parts := LayoutParts(m, color, greeting, body, sections, buttons, bank, footer, fullName);
    ConcatEnds(parts);
    ContainsWithin(Concat(parts), parts[10], "Sent by " + fullName);
    Concat(parts)
  }

  /** The greeting comes before the body, and the body before the sections. */
  lemma {:induction false} LayoutOrderTop(m: Markup, color: string, greeting: string, body: string,
                                          sections: string, buttons: string, bank: string,
                                          footer: Footer, fullName: string)
    ensures var r := Layout(m, color, greeting, body, sections, buttons, bank, footer, fullName);
      Before(r, greeting, body) && Before(r, body, sections)
  {
    var parts := LayoutParts(m, color, greeting, body, sections, buttons, bank, footer, fullName);
    var r := Concat(parts);
    ContainsSelf(sections);
    EndsWithContains(parts[1], greeting);
    EndsWithContains(parts[2], body);
    ConcatBefore(parts, 1, 2);
    BeforeInside(r, parts[1], parts[2], greeting, body);
    ConcatBefore(parts, 2, 4);
    BeforeInside(r, parts[2], parts[4], body, sections);
  }

  /** The sections, the buttons and the bank details come in that order. */
  lemma {:induction false} LayoutOrderMiddle(m: Markup, color: string, greeting: string, body: string,
                                             sections: string, buttons: string, bank: string,
                                             footer: Footer, fullName: string)
    ensures var r := Layout(m, color, greeting, body, sections, buttons, bank, footer, fullName);
      Before(r, sections, buttons) && Before(r, buttons, bank)
  {
    var parts := LayoutParts(m, color, greeting, body, sections, buttons, bank, footer, fullName);
    ConcatBefore(parts, 4, 6);
    ConcatBefore(parts, 6, 8);
  }

  /** The bank details, the closing phrase, the department and the "Sent by" line come in that order. */
  lemma {:induction false} LayoutOrderBottom(m: Markup, color: string, greeting: string, body: string,
                                             sections: string, buttons: string, bank: string,
                                             footer: Footer, fullName: string)
    ensures var r := Layout(m, color, greeting, body, sections, buttons, bank, footer, fullName);
      && Before(r, bank, footer.closing)
      && Before(r, footer.closing, footer.department)
      && Before(r, footer.department, "Sent by " + fullName)
  {
    var parts := LayoutParts(m, color, greeting, body, sections, buttons, bank, footer, fullName);
    var r := Concat(parts);
    ContainsSelf(bank);
    BeforeContains(parts[9], footer.closing, footer.department);
    ConcatBefore(parts, 8, 9);
    BeforeInside(r, parts[8], parts[9], bank, footer.closing);
    ConcatAt(parts, 9);
    BeforeWithin(r, parts[9], footer.closing, footer.department);
    ConcatBefore(parts, 9, 10);
    BeforeInside(r, parts[9], parts[10], footer.department, "Sent by " + fullName);
  }

  /**
   * The layout shows the greeting, the body, the sections, the buttons, the
   * bank details, the closing phrase, the department and the "Sent by" line in
   * that order.
   */
  lemma {:induction false} LayoutOrder(m: Markup, color: string, greeting: string, body: string,
                                       sections: string, buttons: string, bank: string,
                                       footer: Footer, fullName: string)
    ensures var r := Layout(m, color, greeting, body, sections, buttons, bank, footer, fullName);
      && Before(r, greeting, body)
      && Before(r, body, sections)
      && Before(r, sections, buttons)
      && Before(r, buttons, bank)
      && Before(r, bank, footer.closing)
      && Before(r, footer.closing, footer.department)
      && Before(r, footer.department, "Sent by " + fullName)
  {
    LayoutOrderTop(m, color, greeting, body, sections, buttons, bank, footer, fullName);
    LayoutOrderMiddle(m, color, greeting, body, sections, buttons, bank, footer, fullName);
    LayoutOrderBottom(m, color, greeting, body, sections, buttons, bank, footer, fullName);
  }

  /** The layout shows its greeting and its body. */
  lemma {:induction false} LayoutShows(m: Markup, color: string, greeting: string, body: string,
                                       sections: string, buttons: string, bank: string,
                                       footer: Footer, fullName: string)
    ensures var r := Layout(m, color, greeting, body, sections, buttons, bank, footer, fullName);
      Contains(r, greeting) && Contains(r, body)
  {
    LayoutOrder(m, color, greeting, body, sections, buttons, bank, footer, fullName);
  }

  /** The document of a template for a department, with the given names. */
  function Document(m: Markup, t: EmailTemplate, config: DepartmentConfig, client: string, agent: string)
    : (r: string)
    ensures Contains(r, HtmlGreeting(t, client)) && Contains(r, HtmlBody(t, client, agent))
    ensures Contains(r, "Sent by " + config.fullName)
  {
    LayoutShows(m, config.color, HtmlGreeting(t, client), HtmlBody(t, client, agent),
                SectionsHtml(m, t.sections, config.color), ButtonsHtml(m, t.buttons, config.color),
                BankHtml(m, t.bankDetails), t.footer, config.fullName);
    Layout(m, config.color, HtmlGreeting(t, client), HtmlBody(t, client, agent),
           SectionsHtml(m, t.sections, config.color), ButtonsHtml(m, t.buttons, config.color),
           BankHtml(m, t.bankDetails), t.footer, config.fullName)
  }

  /**
   * The document shows the greeting, the body, the sections, the buttons, the
   * bank details, the closing phrase, the department and the "Sent by" line in
   * that order.
   */
  lemma {:induction false} DocumentOrder(m: Markup, t: EmailTemplate, config: DepartmentConfig,
                                         client: string, agent: string)
    ensures var r := Document(m, t, config, client, agent);
      && Before(r, HtmlGreeting(t, client), HtmlBody(t, client, agent))
      && Before(r, HtmlBody(t, client, agent), SectionsHtml(m, t.sections, config.color))
      && Before(r, SectionsHtml(m, t.sections, config.color), ButtonsHtml(m, t.buttons, config.color))
      && Before(r, ButtonsHtml(m, t.buttons, config.color), BankHtml(m, t.bankDetails))
      && Before(r, BankHtml(m, t.bankDetails), t.footer.closing)
      && Before(r, t.footer.closing, t.footer.department)
      && Before(r, t.footer.department, "Sent by " + config.fullName)
  {
    LayoutOrder(m, config.color, HtmlGreeting(t, client), HtmlBody(t, client, agent),
                SectionsHtml(m, t.sections, config.color), ButtonsHtml(m, t.buttons, config.color),
                BankHtml(m, t.bankDetails), t.footer, config.fullName);
  }

  /**
   * With a template whose greeting and body each hold their one placeholder, the
   * email shows the greeting with the client's name (or "[Client]") in place of
   * the placeholder, and the body with the agent's name (or "[Agent]").
   */
  lemma {:induction false} NamesFilled(m: Markup, t: EmailTemplate, config: DepartmentConfig,
                                       client: string, agent: string,
                                       a: string, b: string, c: string, e: string)
    requires PlaceholderAt(t.greeting, ClientToken, a, b)
    requires PlaceholderAt(t.body, AgentToken, c, e)
    requires '$' !in client && '$' !in agent && '{' !in agent
    ensures Contains(Document(m, t, config, client, agent), a + Fallback(client, ClientFallback) + b)
    ensures Contains(Document(m, t, config, client, agent), Breaks(c + Fallback(agent, AgentFallback) + e))
    ensures client == "" ==> Contains(Document(m, t, config, client, agent), a + "[Client]" + b)
    ensures agent == "" ==> Contains(Document(m, t, config, client, agent), Breaks(c + "[Agent]" + e))
  {
    GreetingFilled(t, Fallback(client, ClientFallback), a, b);
    BodyFilled(t, Fallback(client, ClientFallback), Fallback(agent, AgentFallback), c, e);
    LayoutShows(m, config.color, HtmlGreeting(t, client), HtmlBody(t, client, agent),
                SectionsHtml(m, t.sections, config.color), ButtonsHtml(m, t.buttons, config.color),
                BankHtml(m, t.bankDetails), t.footer, config.fullName);
  }

  // ---------------------------------------------------------------------------
  // The email's own markup

  const Font: string :=
    "'Outfit','He" + "lvetica " + "Neue',Helvet" + "ica,Arial,sa" + "ns-serif"
  const HeadingOpen: string :=
    "<tr><td " + "style=\"paddi" + "ng:20px 0 " + "6px 0;\">\n   " + "            " + " "
  const HeadingStyle: string :=
    " " + "style=\"margi" + "n:0;font-siz" + "e:15px;font-" + "weight:700;c" + "olor:"
  const HeadingClose: string :=
    "\n           " + "   " + "</td></tr>"
  const ItemOpen: string :=
    "<tr><td " + "style=\"paddi" + "ng:3px 0 " + "3px " + "16px;font-si" + "ze:14px;line"
    + "-height:1.6;" + "color:#37415" + "1;font-famil" + "y:"
  const ItemMid: string :=
    ";position:re" + "lative;\">\n  " + "            " + "      <span " + "style=\"color" + ":"
  const ItemMark: string :=
    ";font-weight" + ":700;margin-" + "right:8px;\">"
  const ItemClose: string :=
    "\n           " + "       " + "</td></tr>"
  const ProseOpen: string :=
    "<tr><td " + "style=\"paddi" + "ng:0 0 8px " + "0;font-size:" + "14px;line-he"
    + "ight:1.7;col" + "or:#374151;f" + "ont-family:"
  const ProseMid: string :=
    ";\">\n        " + "      "
  const ProseClose: string :=
    "\n           " + " </td></tr>"
  const ButtonStyle: string :=
    " " + "style=\"displ" + "ay:inline-bl" + "ock;backgrou" + "nd-color:"
  const ButtonFont: string :=
    ";color:#ffff" + "ff;padding:1" + "2px " + "28px;text-de" + "coration:non" + "e;border-rad"
    + "ius:6px;font" + "-weight:700;" + "font-size:14" + "px;font-fami" + "ly:"
  const ButtonTextOpen: string :=
    ";margin:4px " + "0;\""
  const RowOpen: string :=
    "\n        " + "<tr><td " + "style=\"paddi" + "ng:3px " + "20px;font-si" + "ze:13px;font"
    + "-family:"
  const RowKeyOpen: string :=
    ";\">\n        " + "  <span " + "style=\"color" + ":#6b7280;fon" + "t-weight:600"
    + ";display:inl" + "ine-block;mi" + "n-width:130p" + "x;\""
  const RowValueOpen: string :=
    "\n          " + "<span " + "style=\"color" + ":#1f2937;\""
  const RowClose: string :=
    "\n        " + "</td></tr>"
  const BankOpen: string :=
    "\n    " + "<tr><td " + "style=\"paddi" + "ng:24px 0 0 " + "0;\">\n      " + "<table "
    + "style=\"width" + ":100%;border" + "-collapse:co" + "llapse;backg" + "round:#f8f9f"
    + "a;border-rad" + "ius:8px;bord" + "er:1px " + "solid " + "#eef0f2;\">\n " + "       "
    + "<tr><td " + "style=\"paddi" + "ng:16px " + "20px 10px " + "20px;\">\n    " + "      <h3 "
    + "style=\"margi" + "n:0;font-siz" + "e:14px;font-" + "weight:700;c" + "olor:#1f2937"
    + ";font-family" + ":"
  const BankTitleClose: string :=
    "</h3>\n      " + "  " + "</td></tr>\n " + "       "
  const BankNoteOpen: string :=
    "\n        " + "<tr><td " + "style=\"paddi" + "ng:12px " + "20px 16px " + "20px;font-si"
    + "ze:12px;colo" + "r:#6b7280;fo" + "nt-style:ita" + "lic;line-hei" + "ght:1.5;font"
    + "-family:"
  const BankNoteCell: string :=
    ";\">\n        " + "  "
  const BankClose: string :=
    "\n        " + "</td></tr>\n " + "     " + "</table>\n   " + " </td></tr>"
  const DocHead: string :=
    "\n<html>\n" + "<head>\n  " + "<meta " + "charset=\"utf" + "-8\">\n  " + "<meta "
    + "name=\"viewpo" + "rt\" " + "content=\"wid" + "th=device-wi" + "dth, " + "initial-scal"
    + "e=1.0\">\n  " + "<link " + "href=\"https:" + "//fonts.goog" + "leapis.com/c"
    + "ss2?family=O" + "utfit:wght@4" + "00;500;600;7" + "00&display=s" + "wap\" "
    + "rel=\"stylesh" + "eet\">\n" + "</head>\n" + "<body " + "style=\"margi" + "n:0;padding:"
    + "0;background" + ":#f4f5f7;fon" + "t-family:"
  const DocFrameOpen: string :=
    ";\">\n  " + "<table " + "role=\"presen" + "tation\" " + "style=\"width" + ":100%;border"
    + "-collapse:co" + "llapse;\">\n  " + "  <tr><td " + "align=\"cente" + "r\" "
    + "style=\"paddi" + "ng:32px " + "16px;\">\n    " + "  <table " + "role=\"presen"
    + "tation\" " + "style=\"width" + ":100%;max-wi" + "dth:600px;bo" + "rder-collaps"
    + "e:collapse;\"" + ">\n        " + "<!-- Color " + "bar -->\n    " + "    <tr><td "
    + "style=\"backg" + "round:"
  const DocGreetingOpen: string :=
    ";height:5px;" + "border-radiu" + "s:8px 8px 0 " + "0;\"></td></t" + "r>\n        "
    + "<!-- " + "Content -->\n" + "        " + "<tr><td " + "style=\"backg" + "round:#fffff"
    + "f;padding:36" + "px " + "32px;border-" + "radius:0 0 " + "8px " + "8px;box-shad"
    + "ow:0 1px " + "4px " + "rgba(0,0,0,0" + ".06);\">\n    " + "      " + "<table "
    + "role=\"presen" + "tation\" " + "style=\"width" + ":100%;border" + "-collapse:co"
    + "llapse;\">\n  " + "          " + "<!-- " + "Greeting " + "-->\n        " + "    <tr><td "
    + "style=\"paddi" + "ng:0 0 14px " + "0;\">\n       " + "       <h2 " + "style=\"margi"
    + "n:0;font-siz" + "e:18px;font-" + "weight:600;c" + "olor:#1f2937" + ";font-family" + ":"
  const DocBodyOpen: string :=
    "</h2>\n      " + "      " + "</td></tr>\n " + "           " + "<!-- Body "
    + "-->\n        " + "    <tr><td " + "style=\"paddi" + "ng:0 0 4px " + "0;font-size:"
    + "14px;line-he" + "ight:1.7;col" + "or:#374151;f" + "ont-family:"
  const DocBodyCell: string :=
    ";\">\n        " + "      "
  const DocSectionsOpen: string :=
    "\n           " + " </td></tr>\n" + "            " + "<!-- " + "Sections " + "-->\n        "
    + "    "
  const DocButtonsOpen: string :=
    "\n           " + " <!-- CTA " + "-->\n        " + "    <tr><td " + "style=\"paddi"
    + "ng:22px " + "0;\">\n       " + "       "
  const DocBankOpen: string :=
    "\n           " + " </td></tr>\n" + "            " + "<!-- Bank " + "details -->\n"
    + "            "
  const DocFooterOpen: string :=
    "\n           " + " <!-- " + "Footer -->\n " + "           " + "<tr><td " + "style=\"paddi"
    + "ng:28px 0 0 " + "0;border-top" + ":1px solid " + "#eef0f2;\">\n " + "            " + " <p "
    + "style=\"margi" + "n:0;font-siz" + "e:14px;color" + ":#6b7280;lin" + "e-height:1.6"
    + ";font-family" + ":"
  const DocFooterCell: string :=
    ";\">\n        " + "        "
  const DocStrongOpen: string :=
    "<br>\n       " + "         " + "<strong " + "style=\"color" + ":"
  const DocSubFooterOpen: string :=
    "</strong>\n  " + "            " + "</p>\n       " + "     " + "</td></tr>\n " + "         "
    + "</table>\n   " + "     " + "</td></tr>\n " + "       <!-- " + "Sub-footer "
    + "-->\n        " + "<tr><td " + "style=\"paddi" + "ng:14px " + "0;text-align"
    + ":center;\">\n " + "         <p " + "style=\"margi" + "n:0;font-siz" + "e:11px;color"
    + ":#b0b5bf;fon" + "t-family:"
  const DocSentByCell: string :=
    ";\">\n        " + "    "
  const DocTail: string :=
    "\n          " + "</p>\n       " + " </td></tr>\n" + "      " + "</table>\n   "
    + " </td></tr>\n" + "  </table>\n" + "</body>\n"

  lemma FontBulletFree()
    ensures '&' !in Font
  {
  }

  lemma ItemOpenBulletFree()
    ensures '&' !in ItemOpen
  {
  }

  lemma ItemMidBulletFree()
    ensures '&' !in ItemMid
  {
  }

  lemma ItemMarkBulletFree()
    ensures '&' !in ItemMark
  {
  }

  lemma ItemCloseBulletFree()
    ensures '&' !in ItemClose
  {
  }

  lemma ProseOpenBulletFree()
    ensures '&' !in ProseOpen
  {
  }

  lemma ProseMidBulletFree()
    ensures '&' !in ProseMid
  {
  }

  lemma ProseCloseBulletFree()
    ensures '&' !in ProseClose
  {
  }

  const SourceMarkup: Markup := Markup(
    font := Font,
    headingOpen := HeadingOpen,
    headingStyle := HeadingStyle,
    headingClose := HeadingClose,
    itemOpen := ItemOpen,
    itemMid := ItemMid,
    itemMark := ItemMark,
    itemClose := ItemClose,
    proseOpen := ProseOpen,
    proseMid := ProseMid,
    proseClose := ProseClose,
    buttonStyle := ButtonStyle,
    buttonFont := ButtonFont,
    buttonTextOpen := ButtonTextOpen,
    rowOpen := RowOpen,
    rowKeyOpen := RowKeyOpen,
    rowValueOpen := RowValueOpen,
    rowClose := RowClose,
    bankOpen := BankOpen,
    bankTitleClose := BankTitleClose,
    bankNoteOpen := BankNoteOpen,
    bankNoteCell := BankNoteCell,
    bankClose := BankClose,
    docHead := DocHead,
    docFrameOpen := DocFrameOpen,
    docGreetingOpen := DocGreetingOpen,
    docBodyOpen := DocBodyOpen,
    docBodyCell := DocBodyCell,
    docSectionsOpen := DocSectionsOpen,
    docButtonsOpen := DocButtonsOpen,
    docBankOpen := DocBankOpen,
    docFooterOpen := DocFooterOpen,
    docFooterCell := DocFooterCell,
    docStrongOpen := DocStrongOpen,
    docSubFooterOpen := DocSubFooterOpen,
    docSentByCell := DocSentByCell,
    docTail := DocTail)

  lemma SourceRowsBulletFree()
    ensures RowsBulletFree(SourceMarkup)
  {
    FontBulletFree();
    ItemOpenBulletFree();
    ItemMidBulletFree();
    ItemMarkBulletFree();
    ItemCloseBulletFree();
    ProseOpenBulletFree();
    ProseMidBulletFree();
    ProseCloseBulletFree();
  }

  /** `generateEmailHtml`: the document rendered with the email's own markup. */
  function GenerateEmailHtml(t: EmailTemplate, config: DepartmentConfig, client: string, agent: string)
    : (r: string)
    ensures StartsWith(r, "<!DOCTYPE html>")
    ensures EndsWith(r, "</html>")
    ensures Contains(r, "Sent by " + config.fullName)
  {
    Document(SourceMarkup, t, config, client, agent)
  }

  /**
   * For every department and language, the email shows the template's greeting
   * with the client's name (or "[Client]") where its one placeholder was, and
   * its body with the agent's name (or "[Agent]") where its one placeholder was.
   */
  lemma TableNamesFilled(d: Department, l: Language, client: string, agent: string)
    requires '$' !in client && '$' !in agent && '{' !in agent
    ensures var t := GetTemplate(d, l);
      var r := GenerateEmailHtml(t, Config(d), client, agent);
      exists a, b, c, e ::
        && PlaceholderAt(t.greeting, ClientToken, a, b) && PlaceholderAt(t.body, AgentToken, c, e)
        && Contains(r, a + Fallback(client, ClientFallback) + b)
        && Contains(r, Breaks(c + Fallback(agent, AgentFallback) + e))
  {
    TableShape(d, l);
    ShapedNamesFilled(GetTemplate(d, l), Config(d), client, agent);
  }

  /** `NamesFilled` for any template with one placeholder in its greeting and one in its body. */
  lemma {:induction false} ShapedNamesFilled(t: EmailTemplate, config: DepartmentConfig, client: string, agent: string)
    requires OnePlaceholder(t.greeting, ClientToken) && OnePlaceholder(t.body, AgentToken)
    requires '$' !in client && '$' !in agent && '{' !in agent
    ensures var r := GenerateEmailHtml(t, config, client, agent);
      exists a, b, c, e ::
        && PlaceholderAt(t.greeting, ClientToken, a, b) && PlaceholderAt(t.body, AgentToken, c, e)
        && Contains(r, a + Fallback(client, ClientFallback) + b)
        && Contains(r, Breaks(c + Fallback(agent, AgentFallback) + e))
  {
    var a, b :| PlaceholderAt(t.greeting, ClientToken, a, b);
    var c, e :| PlaceholderAt(t.body, AgentToken, c, e);
    NamesFilled(SourceMarkup, t, config, client, agent, a, b, c, e);
  }
}
