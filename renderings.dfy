/**
 * How the HTML email and the on-screen preview of the same template agree and
 * where they differ.
 */
module Renderings {
  import opened Wrappers
  import opened Strings
  import opened Templates
  import opened Content
  import opened EmailHtml
  import opened EmailPreview

  /**
   * A section's list items are the same in both renderings: the email has one
   * bullet per item of the preview's list, and none for a paragraph.
   */
  lemma {:induction false} SameItems(m: Markup, s: Section, color: string)
    requires RowsBulletFree(m) && '&' !in s.content && '&' !in color
    ensures var b := ContentBlock(s.content, color);
      Count(ContentHtml(m, s.content, color), Bullet) == if b.Bullets? then |b.items| else 0
  {
    ContentBullets(m, s.content, color);
  }

  /** For an empty heading the email emits a spacer row, the preview nothing. */
  lemma {:induction false} EmptyHeadingDiffers(m: Markup, s: Section, color: string)
    requires s.heading == ""
    ensures HeadingHtml(m, s.heading, color) == SpacerRow && SpacerRow != ""
    ensures SectionBlocks(s, color) == [ContentBlock(s.content, color)]
  {
    assert SpacerRow[0] == '<';
  }

  /**
   * With an empty proof note the email still emits the note's cell after the
   * rows, while the preview's bank block has no note.
   */
  lemma {:induction false} EmptyProofNoteDiffers(m: Markup, d: BankDetails)
    requires d.proofNote == ""
    ensures Before(BankHtml(m, Some(d)), Concat(BankRowRows(m, d.rows)), m.bankNoteOpen + m.font + m.bankNoteCell)
    ensures BankBlocks(Some(d)) == [BankBlock(d.title, BankCells(d.rows), None)]
  {
    assert m.bankNoteOpen + m.font + m.bankNoteCell + d.proofNote == m.bankNoteOpen + m.font + m.bankNoteCell;
  }

  /** Without a client name the email greets "[Client]". */
  lemma {:induction false} EmailFallbackGreeting(t: EmailTemplate, a: string, b: string)
    requires PlaceholderAt(t.greeting, ClientToken, a, b)
    ensures HtmlGreeting(t, "") == a + "[Client]" + b
  {
    assert ClientFallback == "[Client]";
    GreetingFilled(t, ClientFallback, a, b);
  }

  /** Without a client name the preview greets "[client name]". */
  lemma {:induction false} PreviewFallbackGreeting(t: EmailTemplate, a: string, b: string)
    requires PlaceholderAt(t.greeting, ClientToken, a, b)
    ensures PreviewGreeting(t, "") == a + "[client name]" + b
  {
    assert ClientPlaceholderName == "[client name]";
    GreetingFilled(t, ClientPlaceholderName, a, b);
  }

  /** So without a client name the two renderings greet differently. */
  lemma {:induction false} FallbacksDiffer(t: EmailTemplate, a: string, b: string)
    requires PlaceholderAt(t.greeting, ClientToken, a, b)
    ensures HtmlGreeting(t, "") != PreviewGreeting(t, "")
  {
    EmailFallbackGreeting(t, a, b);
    PreviewFallbackGreeting(t, a, b);
    var x := "[Client]";
    var y := "[client name]";
    assert x[1] != y[1];
    assert (a + x + b)[|a| + 1] == x[1];
    assert (a + y + b)[|a| + 1] == y[1];
  }

  /**
   * With both names given the renderings show the same greeting and the same
   * body text, the email with `<br>` where the preview keeps its newlines.
   */
  lemma {:induction false} SameTextForNames(t: EmailTemplate, client: string, agent: string)
    requires client != "" && agent != ""
    ensures HtmlGreeting(t, client) == PreviewGreeting(t, client)
    ensures HtmlBody(t, client, agent) == Breaks(PreviewBody(t, client, agent))
  {
  }
}
