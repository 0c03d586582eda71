/**
 * The layout of the fillable Firearms Guardian application form: one A4 page
 * drawn top to bottom by a vertical cursor `y`, a log of what is drawn, a
 * registry of the form's fields (whose names must be unique), and a greedy
 * word wrap of the declaration paragraph.
 *
 * Text measurement is a parameter: `width(s)` is the width of `s` in the
 * regular font at the declaration's size.
 */
module PdfForm {
  import opened Strings

  // ---------------------------------------------------------------------------
  // Greedy word wrap

  /** The line that adding `word` to `line` would give. */
  function Extend(line: string, word: string): string {
    if line != "" then line + " " + word else word
  }

  /**
   * The wrap of the remaining `words`, given the lines already flushed and the
   * line being built: a word that would make a non-empty line too wide starts
   * a new line; the last line is kept if it is non-empty.
   */
  function WrapFrom(words: seq<string>, out: seq<string>, line: string, width: string -> real, maxW: real)
    : seq<string>
    decreases |words|
  {
    if words == [] then (if line != "" then out + [line] else out)
    else
      var test := Extend(line, words[0]);
      if width(test) > maxW && line != "" then WrapFrom(words[1..], out + [line], words[0], width, maxW)
      else WrapFrom(words[1..], out, test, width, maxW)
  }

  /** The lines the declaration is drawn in. */
  function Wrap(words: seq<string>, width: string -> real, maxW: real): seq<string> {
    WrapFrom(words, [], "", width, maxW)
  }

  /** The text up to its first space. */
  function FirstWord(s: string): (r: string)
    ensures ' ' !in r
    decreases |s|
  {
    if s == [] || s[0] == ' ' then [] else [s[0]] + FirstWord(s[1..])
  }

  lemma {:induction false} FirstWordOfWord(w: string)
    requires ' ' !in w
    ensures FirstWord(w) == w
    decreases |w|
  {
    if w != [] {
      FirstWordOfWord(w[1..]);
      assert [w[0]] + w[1..] == w;
    }
  }

  lemma {:induction false} FirstWordExtend(a: string, b: string)
    ensures FirstWord(a + " " + b) == FirstWord(a)
    decreases |a|
  {
    if a != [] && a[0] != ' ' {
      assert (a + " " + b)[1..] == a[1..] + " " + b;
      FirstWordExtend(a[1..], b);
    }
  }

  ghost predicate AllNonEmpty(xs: seq<string>) {
    forall i | 0 <= i < |xs| :: xs[i] != ""
  }

  ghost predicate SpaceFree(words: seq<string>) {
    forall i | 0 <= i < |words| :: ' ' !in words[i]
  }

  /** A line fits, or is one word too wide to break. */
  ghost predicate FitsOrSingle(s: string, width: string -> real, maxW: real) {
    width(s) <= maxW || ' ' !in s
  }

  /** Each line but the last is full: the next line's first word would not have fitted on it. */
  ghost predicate Greedy(lines: seq<string>, width: string -> real, maxW: real) {
    forall i | 0 <= i < |lines| - 1 :: width(lines[i] + " " + FirstWord(lines[i + 1])) > maxW
  }

  /** No line is empty. */
  lemma {:induction false} WrapFromNonEmpty(words: seq<string>, out: seq<string>, line: string,
                                            width: string -> real, maxW: real)
    requires AllNonEmpty(out)
    ensures AllNonEmpty(WrapFrom(words, out, line, width, maxW))
    decreases |words|
  {
    if words != [] {
      var test := Extend(line, words[0]);
      if width(test) > maxW && line != "" {
        WrapFromNonEmpty(words[1..], out + [line], words[0], width, maxW);
      } else {
        WrapFromNonEmpty(words[1..], out, test, width, maxW);
      }
    }
  }

  /** Every line fits the width, or is a single word. */
  lemma {:induction false} WrapFromFits(words: seq<string>, out: seq<string>, line: string,
                                        width: string -> real, maxW: real)
    requires SpaceFree(words)
    requires forall i | 0 <= i < |out| :: FitsOrSingle(out[i], width, maxW)
    requires FitsOrSingle(line, width, maxW)
    ensures forall i | 0 <= i < |WrapFrom(words, out, line, width, maxW)| ::
      FitsOrSingle(WrapFrom(words, out, line, width, maxW)[i], width, maxW)
    decreases |words|
  {
    if words == [] {
      var r := WrapFrom(words, out, line, width, maxW);
      forall i | 0 <= i < |r| ensures FitsOrSingle(r[i], width, maxW) {
        if i < |out| {
          assert r[i] == out[i];
        }
      }
    } else {
      var test := Extend(line, words[0]);
      assert SpaceFree(words[1..]) by {
        forall i | 0 <= i < |words[1..]| ensures ' ' !in words[1..][i] {
          assert words[1..][i] == words[i + 1];
        }
      }
      assert ' ' !in words[0];
      if width(test) > maxW && line != "" {
        var out' := out + [line];
        assert forall i | 0 <= i < |out'| :: FitsOrSingle(out'[i], width, maxW) by {
          forall i | 0 <= i < |out'| ensures FitsOrSingle(out'[i], width, maxW) {
            if i < |out| {
              assert out'[i] == out[i];
            }
          }
        }
        WrapFromFits(words[1..], out', words[0], width, maxW);
      } else {
        WrapFromFits(words[1..], out, test, width, maxW);
      }
    }
  }

  /** Two adjacent parts joined into one, with the separator between them, give the same join. */
  lemma {:induction false} JoinMerge(xs: seq<string>, a: string, b: string, ys: seq<string>)
    ensures Join(xs + [a] + [b] + ys, " ") == Join(xs + [a + " " + b] + ys, " ")
    decreases |xs|
  {
    if xs == [] {
      assert [a] + [b] + ys == [a, b] + ys;
      assert ([a, b] + ys)[1..] == [b] + ys;
      assert ([a + " " + b] + ys)[1..] == ys;
      if ys != [] {
        assert ([b] + ys)[1..] == ys;
      }
    } else {
      JoinMerge(xs[1..], a, b, ys);
      assert (xs + [a] + [b] + ys)[1..] == xs[1..] + [a] + [b] + ys;
      assert (xs + [a + " " + b] + ys)[1..] == xs[1..] + [a + " " + b] + ys;
    }
  }

  /** Joined with single spaces, the lines give back the words joined with single spaces. */
  lemma {:induction false} WrapFromJoin(words: seq<string>, out: seq<string>, line: string,
                                        width: string -> real, maxW: real)
    requires AllNonEmpty(words) && line != ""
    ensures Join(WrapFrom(words, out, line, width, maxW), " ") == Join(out + [line] + words, " ")
    decreases |words|
  {
    if words == [] {
      assert out + [line] + words == out + [line];
    } else {
      var w := words[0];
      assert AllNonEmpty(words[1..]) by {
        forall i | 0 <= i < |words[1..]| ensures words[1..][i] != "" {
          assert words[1..][i] == words[i + 1];
        }
      }
      assert words == [w] + words[1..];
      if width(Extend(line, w)) > maxW {
        WrapFromJoin(words[1..], out + [line], w, width, maxW);
        assert out + [line] + [w] + words[1..] == out + [line] + words;
      } else {
        WrapFromJoin(words[1..], out, line + " " + w, width, maxW);
        JoinMerge(out, line, w, words[1..]);
        assert out + [line] + [w] + words[1..] == out + [line] + words;
      }
    }
  }

  /** Each flushed line is full. */
  lemma {:induction false} WrapFromGreedy(words: seq<string>, out: seq<string>, line: string,
                                          width: string -> real, maxW: real)
    requires AllNonEmpty(words) && SpaceFree(words)
    requires line != "" || out == []
    requires Greedy(out + [line], width, maxW)
    ensures Greedy(WrapFrom(words, out, line, width, maxW), width, maxW)
    decreases |words|
  {
    if words == [] {
      if line == "" {
        assert WrapFrom(words, out, line, width, maxW) == [];
      } else {
        assert WrapFrom(words, out, line, width, maxW) == out + [line];
      }
    } else {
      var w := words[0];
      assert ' ' !in w && w != "";
      assert AllNonEmpty(words[1..]) && SpaceFree(words[1..]) by {
        forall i | 0 <= i < |words[1..]| ensures words[1..][i] != "" && ' ' !in words[1..][i] {
          assert words[1..][i] == words[i + 1];
        }
      }
      var test := Extend(line, w);
      if width(test) > maxW && line != "" {
        var ls := out + [line] + [w];
        FirstWordOfWord(w);
        forall i | 0 <= i < |ls| - 1 ensures width(ls[i] + " " + FirstWord(ls[i + 1])) > maxW {
          if i < |ls| - 2 {
            assert ls[i] == (out + [line])[i] && ls[i + 1] == (out + [line])[i + 1];
          }
        }
        WrapFromGreedy(words[1..], out + [line], w, width, maxW);
      } else {
        var ls := out + [test];
        if line != "" {
          FirstWordExtend(line, w);
        }
        var prev := out + [line];
        forall i | 0 <= i < |ls| - 1 ensures width(ls[i] + " " + FirstWord(ls[i + 1])) > maxW {
          assert ls[i] == prev[i];
          assert width(prev[i] + " " + FirstWord(prev[i + 1])) > maxW;
          if i < |ls| - 2 {
            assert ls[i + 1] == prev[i + 1];
          } else {
            assert ls[i + 1] == test && prev[i + 1] == line;
          }
        }
        WrapFromGreedy(words[1..], out, test, width, maxW);
      }
    }
  }

  /**
   * The wrap of a text's words: no line is empty; every line fits or is a
   * single word; with no empty word (no leading, trailing or doubled space)
   * the lines joined with single spaces are the text again, and every line
   * but the last is full.
   */
  lemma {:induction false} WrapProperties(text: string, width: string -> real, maxW: real)
    ensures var lines := Wrap(Split(text, ' '), width, maxW);
      && AllNonEmpty(lines)
      && (forall i | 0 <= i < |lines| :: FitsOrSingle(lines[i], width, maxW))
      && (AllNonEmpty(Split(text, ' ')) ==> Join(lines, " ") == text && Greedy(lines, width, maxW))
  {
    var words := Split(text, ' ');
    assert Wrap(words, width, maxW) == WrapFrom(words, [], "", width, maxW);
    WrapFromNonEmpty(words, [], "", width, maxW);
    WrapFromFits(words, [], "", width, maxW);
    if AllNonEmpty(words) {
      var w := words[0];
      assert Extend("", w) == w;
      WrapFromJoin(words[1..], [], w, width, maxW);
      assert [] + [w] + words[1..] == words;
      JoinSplit(text, ' ');
      assert Greedy([] + [w], width, maxW);
      WrapFromGreedy(words[1..], [], w, width, maxW);
      assert AllNonEmpty(words[1..]) && SpaceFree(words[1..]) by {
        forall i | 0 <= i < |words[1..]| ensures words[1..][i] != "" && ' ' !in words[1..][i] {
          assert words[1..][i] == words[i + 1];
        }
      }
    }
  }

  // ---------------------------------------------------------------------------
  // The page

  const PageWidth: int := 595
  const PageHeight: int := 842
  const Margin: int := 40
  const FieldH: int := 22
  const LabelGap: int := 2
  const RowGap: int := 8
  const Col1X: int := Margin
  const Col2X: int := Margin + 255
  const FullW: int := PageWidth - Margin * 2
  const HalfW: int := 240

  /** The declaration's font size and line advance, and the advance after its last line. */
  const DeclSize: real := 7.5
  const DeclLineStep: int := 11
  const DeclLastStep: int := 18

  datatype Colour = Red | White | Pink | Black | Gray | FooterGray
  datatype Face = Regular | Bold

  /** What is drawn on the page. */
  datatype Item =
    | Rect(x: int, y: int, w: int, h: int, fill: Colour)
    | Text(text: string, x: int, y: int, size: real, face: Face, colour: Colour)

  /** A field of the form, placed on the page. */
  datatype FormField =
    | TextField(name: string, x: int, y: int, w: int, h: int)
    | Dropdown(name: string, options: seq<string>, selected: string, x: int, y: int, w: int, h: int)
    | CheckBox(name: string, x: int, y: int, w: int, h: int)

  const Provinces: seq<string> := [
    "Please select", "Eastern Cape", "Free State", "Gauteng", "KwaZulu-Natal",
    "Limpopo", "Mpumalanga", "Northern Cape", "North West", "Western Cape"]

  /** The declaration paragraph's four sentences, word by word. */
  const DeclSentence1: seq<string> := ["I", "hereby", "request", "and", "authorise", "the",
    "Administrator,", "Firearms", "Guardian", "(Pty)", "Ltd,", "or", "its", "agents,", "to",
    "draw", "against", "my", "bank", "account", "as", "indicated", "each", "month."]
  const DeclSentence2: seq<string> := ["I", "apply", "for", "a", "Firearms", "Guardian", "policy",
    "in", "accordance", "with", "all", "applicable", "terms", "and", "conditions."]
  const DeclSentence3: seq<string> := ["I", "warrant", "that", "all", "information", "given", "in",
    "this", "application", "form", "is", "true", "and", "complete."]
  const DeclSentence4: seq<string> := ["I", "understand", "that", "the", "acceptance", "of", "my",
    "application", "is", "in", "the", "sole", "discretion", "of", "Firearms", "Guardian", "and",
    "GENRIC", "Insurance", "Company", "Limited."]

  const DeclWords: seq<string> := DeclSentence1 + DeclSentence2 + DeclSentence3 + DeclSentence4

  /** The declaration paragraph: its words separated by single spaces. */
  const DeclText: string := Join(DeclWords, " ")

  const Option1Caption: string := "Option 1: R135.00/month - Comprehensive Legal Protection"
  const Option2Caption: string := "Option 2: R245.00/month - Enhanced Legal and Liability Cover"
  const AgreeCaption: string := "I agree to the above declaration and debit order authorisation"
  const FooterLegal: string :=
    "Firearms Guardian (Pty) Ltd (FSP 47115) | Underwritten by GENRIC Insurance Company Limited (FSP 43638)"
  const FooterContact: string := "012 665 2500 | info@firearmsguardian.co.za | firearmsguardian.co.za"

  /** The form's field names, phase by phase, in the order the fields are created. */
  const PersonalNames: seq<string> := ["surname", "name", "id_number", "mobile", "email"]
  const AddressNames: seq<string> := ["street", "suburb", "city", "province"]
  const BankNames: seq<string> := ["account_holder", "bank_name", "account_type", "account_number"]
  const CoverNames: seq<string> := ["option_1", "option_2", "debit_date"]
  const AgreementNames: seq<string> := ["agree"]
  const SignatureNames: seq<string> := ["signature", "date"]

  const FieldNamesInOrder: seq<string> :=
    PersonalNames + AddressNames + BankNames + CoverNames + AgreementNames + SignatureNames

  /** The section titles, top to bottom. */
  const SectionTitles: seq<string> := [
    "Personal Details", "Bank Account Details", "Choose Your Cover",
    "Declaration & Debit Order Authorisation"]

  /** The declaration's lines as drawn from height `top` down. */
  function DeclarationItems(lines: seq<string>, top: int): (r: seq<Item>)
    ensures |r| == |lines|
    ensures forall i | 0 <= i < |lines| :: r[i] == Text(lines[i], Col1X, top - DeclLineStep * i, DeclSize, Regular, Gray)
  {
    seq(|lines|, i requires 0 <= i < |lines| => Text(lines[i], Col1X, top - DeclLineStep * i, DeclSize, Regular, Gray))
  }

  lemma DeclarationItemsSnoc(lines: seq<string>, line: string, top: int)
    ensures DeclarationItems(lines + [line], top)
         == DeclarationItems(lines, top) + [Text(line, Col1X, top - DeclLineStep * |lines|, DeclSize, Regular, Gray)]
  {
  }

  /** The height taken by `n` declaration lines: a step per line but the last, a larger one for the last. */
  function DeclarationHeight(n: nat): int {
    if n == 0 then 0 else DeclLineStep * (n - 1) + DeclLastStep
  }

  // ---------------------------------------------------------------------------
  // What each part of the form puts on the page, from the height at which it starts

  const HeaderItems: seq<Item> := [Rect(0, PageHeight - 50, PageWidth, 50, Red),
                                   Text("FIREARMS GUARDIAN", Margin, PageHeight - 32, 18.0, Bold, White),
                                   Text("Application Form", Margin, PageHeight - 46, 10.0, Regular, Pink)]

  const FooterItems: seq<Item> := [Rect(0, 0, PageWidth, 28, FooterGray),
                                   Text(FooterLegal, Margin, 11, 7.0, Regular, Gray),
                                   Text(FooterContact, Margin, 3, 7.0, Regular, Gray)]

  /** A section's red band and upper-cased title. */
  function SectionItems(title: string, y: int): seq<Item> {
    [Rect(Margin, y - 16, FullW, 18, Red), Text(ToUpper(title), Margin + 8, y - 12, 9.0, Bold, White)]
  }

  /** A field's small grey label. */
  function Label(text: string, x: int, y: int): Item {
    Text(text, x, y, 8.0, Bold, Gray)
  }

  /** A half-width text field below a label drawn at `y`. */
  function HalfField(name: string, x: int, y: int): FormField {
    TextField(name, x, y - LabelGap - FieldH, HalfW, FieldH)
  }

  /** A full-width text field below a label drawn at `y`. */
  function FullField(name: string, y: int): FormField {
    TextField(name, Col1X, y - LabelGap - FieldH, FullW, FieldH)
  }

  function PersonalItems(y: int): seq<Item> {
    SectionItems("Personal Details", y)
      + [Label("Surname", Col1X, y - 34), Label("Name", Col2X, y - 34),
         Label("ID Number", Col1X, y - 66), Label("Mobile Number", Col2X, y - 66),
         Label("Email Address", Col1X, y - 98)]
  }

  function PersonalFields(y: int): seq<FormField> {
    [HalfField("surname", Col1X, y - 34), HalfField("name", Col2X, y - 34),
     HalfField("id_number", Col1X, y - 66), HalfField("mobile", Col2X, y - 66),
     FullField("email", y - 98)]
  }

  function AddressItems(y: int): seq<Item> {
    [Label("Street Address", Col1X, y), Label("Suburb", Col1X, y - 32), Label("City", Col2X, y - 32),
     Label("Province", Col1X, y - 64)]
  }

  function AddressFields(y: int): seq<FormField> {
    [FullField("street", y), HalfField("suburb", Col1X, y - 32), HalfField("city", Col2X, y - 32),
     Dropdown("province", Provinces, "Please select", Col1X, y - 64 - LabelGap - FieldH, HalfW, FieldH)]
  }

  function BankItems(y: int): seq<Item> {
    SectionItems("Bank Account Details", y)
      + [Label("Account Holder", Col1X, y - 34),
         Label("Bank Name", Col1X, y - 66), Label("Account Type", Col2X, y - 66),
         Label("Account Number", Col1X, y - 98)]
  }

  function BankFields(y: int): seq<FormField> {
    [FullField("account_holder", y - 34),
     HalfField("bank_name", Col1X, y - 66), HalfField("account_type", Col2X, y - 66),
     FullField("account_number", y - 98)]
  }

  function CoverItems(y: int): seq<Item> {
    SectionItems("Choose Your Cover", y)
      + [Text("Please select one:", Col1X, y - 34, 9.0, Regular, Black),
         Text(Option1Caption, Col1X + 22, y - 53, 9.0, Regular, Black),
         Text(Option2Caption, Col1X + 22, y - 75, 9.0, Regular, Black),
         Label("Preferred Debit Date (1st - 28th)", Col1X, y - 106)]
  }

  function CoverFields(y: int): seq<FormField> {
    [CheckBox("option_1", Col1X, y - 56, 14, 14), CheckBox("option_2", Col1X, y - 78, 14, 14),
     TextField("debit_date", Col1X, y - 130, HalfW, FieldH)]
  }

  /** The declaration section: its band, the declaration's lines, then the agreement's caption. */
  function DeclarationSectionItems(lines: seq<string>, y: int): seq<Item> {
    SectionItems("Declaration & Debit Order Authorisation", y)
      + DeclarationItems(lines, y - 34)
      + [Text(AgreeCaption, Col1X + 22, y - 34 - DeclarationHeight(|lines|) + 1, 9.0, Bold, Black)]
  }

  function DeclarationSectionFields(lineCount: nat, y: int): seq<FormField> {
    [CheckBox("agree", Col1X, y - 34 - DeclarationHeight(lineCount) - 2, 14, 14)]
  }

  function SignatureItems(y: int): seq<Item> {
    [Label("Signature (Type full name)", Col1X, y), Label("Date", Col2X, y)]
  }

  function SignatureFields(y: int): seq<FormField> {
    [HalfField("signature", Col1X, y), HalfField("date", Col2X, y)]
  }

  /** The applicant's part, from `y` down: personal details, address, then bank account. */
  function ApplicantItems(y: int): seq<Item> {
    PersonalItems(y) + AddressItems(y - 130) + BankItems(y - 232)
  }

  function ApplicantFields(y: int): seq<FormField> {
    PersonalFields(y) + AddressFields(y - 130) + BankFields(y - 232)
  }

  /** The closing part, from `y` down: the declaration with the agreement, then the signature row. */
  function ClosingItems(lines: seq<string>, y: int): seq<Item> {
    DeclarationSectionItems(lines, y) + SignatureItems(y - 64 - DeclarationHeight(|lines|))
  }

  function ClosingFields(lineCount: nat, y: int): seq<FormField> {
    DeclarationSectionFields(lineCount, y) + SignatureFields(y - 64 - DeclarationHeight(lineCount))
  }

  /**
   * The whole page as drawn, top to bottom, for the declaration's `lines`: the
   * header band, the applicant's part from 72 below the top, the cover from
   * 440 below the top, the closing part from 584 below the top (the
   * declaration's first line is 34 lower still, at 224), and the footer band.
   */
  function PageItems(lines: seq<string>): seq<Item> {
    HeaderItems + ApplicantItems(PageHeight - 72) + CoverItems(PageHeight - 440)
      + ClosingItems(lines, PageHeight - 584) + FooterItems
  }

  /** The form's nineteen fields, placed, for a declaration of `lineCount` lines. */
  function PageFields(lineCount: nat): seq<FormField> {
    ApplicantFields(PageHeight - 72) + CoverFields(PageHeight - 440) + ClosingFields(lineCount, PageHeight - 584)
  }

  class FormPage {
    /** The cursor: the height at which the next row is drawn. */
    var y: int
    var drawn: seq<Item>
    var fields: seq<FormField>
    /** The titles of the sections drawn so far. */
    ghost var sections: seq<string>

    function FieldNames(): (r: seq<string>)
      reads this
      ensures |r| == |fields| && forall i | 0 <= i < |fields| :: r[i] == fields[i].name
    {
      seq(|fields|, i reads this requires 0 <= i < |fields| => fields[i].name)
    }

    /** A new page with its header band drawn; the cursor starts below the band. */
    constructor ()
      ensures y == PageHeight - 72
      ensures drawn == HeaderItems
      ensures fields == [] && sections == []
    {
      y := PageHeight - Margin;
      drawn := [Rect(0, PageHeight - 50, PageWidth, 50, Red),
                Text("FIREARMS GUARDIAN", Margin, PageHeight - 32, 18.0, Bold, White),
                Text("Application Form", Margin, PageHeight - 46, 10.0, Regular, Pink)];
      fields := [];
      sections := [];
      y := PageHeight - 72;
    }

    /** `drawSection`: a red band with the upper-cased title; the cursor moves down 34. */
    method DrawSection(title: string)
      modifies this
      ensures y == old(y) - 34
      ensures drawn == old(drawn) + [Rect(Margin, old(y) - 16, FullW, 18, Red),
                                     Text(ToUpper(title), Margin + 8, old(y) - 12, 9.0, Bold, White)]
      ensures fields == old(fields) && sections == old(sections) + [title]
    {
      drawn := drawn + [Rect(Margin, y - 16, FullW, 18, Red),
                        Text(ToUpper(title), Margin + 8, y - 12, 9.0, Bold, White)];
      sections := sections + [title];
      y := y - 34;
    }

    /** `drawLabel`: a small grey label at the cursor. */
    method DrawLabel(text: string, x: int)
      modifies this
      ensures drawn == old(drawn) + [Text(text, x, y, 8.0, Bold, Gray)]
      ensures y == old(y) && fields == old(fields) && sections == old(sections)
    {
      drawn := drawn + [Text(text, x, y, 8.0, Bold, Gray)];
    }

    /** `form.createTextField(name)` placed on the page; a name may be used only once. */
    method AddTextField(name: string, x: int, fieldY: int, w: int)
      requires name !in FieldNames()
      modifies this
      ensures fields == old(fields) + [TextField(name, x, fieldY, w, FieldH)]
      ensures y == old(y) && drawn == old(drawn) && sections == old(sections)
    {
      fields := fields + [TextField(name, x, fieldY, w, FieldH)];
    }

    /** `form.createCheckBox(name)` placed on the page; a name may be used only once. */
    method AddCheckBox(name: string, x: int, boxY: int)
      requires name !in FieldNames()
      modifies this
      ensures fields == old(fields) + [CheckBox(name, x, boxY, 14, 14)]
      ensures y == old(y) && drawn == old(drawn) && sections == old(sections)
    {
      fields := fields + [CheckBox(name, x, boxY, 14, 14)];
    }

    /** `drawHalfFields`: two labelled half-width fields side by side; the cursor moves down 2 + 22 + 8. */
    method DrawHalfFields(label1: string, name1: string, label2: string, name2: string)
      requires name1 !in FieldNames() && name2 !in FieldNames() && name1 != name2
      modifies this
      ensures y == old(y) - (LabelGap + FieldH + RowGap)
      ensures fields == old(fields) + [TextField(name1, Col1X, old(y) - LabelGap - FieldH, HalfW, FieldH),
                                       TextField(name2, Col2X, old(y) - LabelGap - FieldH, HalfW, FieldH)]
      ensures drawn == old(drawn) + [Text(label1, Col1X, old(y), 8.0, Bold, Gray),
                                     Text(label2, Col2X, old(y), 8.0, Bold, Gray)]
      ensures sections == old(sections)
    {
      DrawLabel(label1, Col1X);
      drawn := drawn + [Text(label2, Col2X, y, 8.0, Bold, Gray)];
      y := y - LabelGap;
      var fieldY := y - FieldH;
      AddTextField(name1, Col1X, fieldY, HalfW);
      AddTextField(name2, Col2X, fieldY, HalfW);
      y := fieldY - RowGap;
    }

    /** `drawFullField`: one labelled full-width field; the cursor moves down 2 + 22 + 8. */
    method DrawFullField(caption: string, name: string)
      requires name !in FieldNames()
      modifies this
      ensures y == old(y) - (LabelGap + FieldH + RowGap)
      ensures fields == old(fields) + [TextField(name, Col1X, old(y) - LabelGap - FieldH, FullW, FieldH)]
      ensures drawn == old(drawn) + [Text(caption, Col1X, old(y), 8.0, Bold, Gray)]
      ensures sections == old(sections)
    {
      DrawLabel(caption, Col1X);
      y := y - LabelGap;
      var fieldY := y - FieldH;
      AddTextField(name, Col1X, fieldY, FullW);
      y := fieldY - RowGap;
    }

    /** The province dropdown: ten options, "Please select" first and selected. */
    method DrawProvince()
      requires "province" !in FieldNames()
      modifies this
      ensures y == old(y) - (LabelGap + FieldH + RowGap + 6)
      ensures fields == old(fields) + [Dropdown("province", Provinces, Provinces[0], Col1X,
                                                old(y) - LabelGap - FieldH, HalfW, FieldH)]
      ensures drawn == old(drawn) + [Text("Province", Col1X, old(y), 8.0, Bold, Gray)]
      ensures sections == old(sections)
    {
      DrawLabel("Province", Col1X);
      y := y - LabelGap;
      var provY := y - FieldH;
      fields := fields + [Dropdown("province", Provinces, "Please select", Col1X, provY, HalfW, FieldH)];
      y := provY - RowGap - 6;
    }

    /**
     * "Please select one:", the two cover options as check boxes with their
     * price captions, then the labelled debit-date field.
     */
    method DrawCoverChoice()
      requires "option_1" !in FieldNames() && "option_2" !in FieldNames() && "debit_date" !in FieldNames()
      modifies this
      ensures y == old(y) - 110
      ensures fields == old(fields) + [CheckBox("option_1", Col1X, old(y) - 22, 14, 14),
                                       CheckBox("option_2", Col1X, old(y) - 44, 14, 14),
                                       TextField("debit_date", Col1X, old(y) - 96, HalfW, FieldH)]
      ensures drawn == old(drawn) + [Text("Please select one:", Col1X, old(y), 9.0, Regular, Black),
                                     Text(Option1Caption, Col1X + 22, old(y) - 19, 9.0, Regular, Black),
                                     Text(Option2Caption, Col1X + 22, old(y) - 41, 9.0, Regular, Black),
                                     Text("Preferred Debit Date (1st - 28th)", Col1X, old(y) - 72, 8.0, Bold, Gray)]
      ensures sections == old(sections)
    {
      drawn := drawn + [Text("Please select one:", Col1X, y, 9.0, Regular, Black)];
      y := y - 20;
      AddCheckBox("option_1", Col1X, y - 2);
      drawn := drawn + [Text(Option1Caption, Col1X + 22, y + 1, 9.0, Regular, Black)];
      y := y - 22;
      AddCheckBox("option_2", Col1X, y - 2);
      drawn := drawn + [Text(Option2Caption, Col1X + 22, y + 1, 9.0, Regular, Black)];
      y := y - 30;
      DrawLabel("Preferred Debit Date (1st - 28th)", Col1X);
      y := y - LabelGap;
      var debitY := y - FieldH;
      AddTextField("debit_date", Col1X, debitY, HalfW);
      y := debitY - RowGap - 6;
    }

    /** One line of the declaration at the cursor; the cursor then moves down `step`. */
    method DrawDeclarationLine(line: string, step: int)
      modifies this
      ensures drawn == old(drawn) + [Text(line, Col1X, old(y), DeclSize, Regular, Gray)]
      ensures y == old(y) - step
      ensures fields == old(fields) && sections == old(sections)
    {
      drawn := drawn + [Text(line, Col1X, y, DeclSize, Regular, Gray)];
      y := y - step;
    }

    /**
     * The declaration, word-wrapped to the full width: each line is drawn at the
     * cursor, which moves down 11 after each flushed line and 18 after the last
     * one if that is not empty (a text ending in a space ends on an empty line).
     */
    method DrawDeclaration(text: string, width: string -> real) returns (lines: seq<string>)
      modifies this
      ensures lines == Wrap(Split(text, ' '), width, FullW as real)
      ensures drawn == old(drawn) + DeclarationItems(lines, old(y))
      ensures y == old(y) - DeclLineStep * |lines| || (lines != [] && y == old(y) - DeclarationHeight(|lines|))
      ensures AllNonEmpty(Split(text, ' ')) ==> y == old(y) - DeclarationHeight(|lines|)
      ensures fields == old(fields) && sections == old(sections)
    {
      var words := Split(text, ' ');
      var maxW := FullW as real;
      var line := "";
      var out: seq<string> := [];
      for k := 0 to |words|
        invariant WrapFrom(words[k..], out, line, width, maxW) == Wrap(words, width, maxW)
        invariant drawn == old(drawn) + DeclarationItems(out, old(y))
        invariant y == old(y) - DeclLineStep * |out|
        invariant AllNonEmpty(words) && k > 0 ==> line != ""
        invariant fields == old(fields) && sections == old(sections)
      {
        var word := words[k];
        assert words[k..][1..] == words[k + 1..];
        var test := Extend(line, word);
        if width(test) > maxW && line != "" {
          assert WrapFrom(words[k..], out, line, width, maxW) == WrapFrom(words[k + 1..], out + [line], word, width, maxW);
          DrawDeclarationLine(line, DeclLineStep);
          DeclarationItemsSnoc(out, line, old(y));
          out := out + [line];
          line := word;
        } else {
          assert WrapFrom(words[k..], out, line, width, maxW) == WrapFrom(words[k + 1..], out, test, width, maxW);
          line := test;
        }
      }
      assert words[|words|..] == [];
      if line != "" {
        DrawDeclarationLine(line, DeclLastStep);
        DeclarationItemsSnoc(out, line, old(y));
        out := out + [line];
      }
      lines := out;
    }

    /** The agreement check box and its caption; the cursor moves down 30. */
    method DrawAgreement()
      requires "agree" !in FieldNames()
      modifies this
      ensures y == old(y) - 30
      ensures fields == old(fields) + [CheckBox("agree", Col1X, old(y) - 2, 14, 14)]
      ensures drawn == old(drawn) + [Text(AgreeCaption, Col1X + 22, old(y) + 1, 9.0, Bold, Black)]
      ensures sections == old(sections)
    {
      AddCheckBox("agree", Col1X, y - 2);
      drawn := drawn + [Text(AgreeCaption, Col1X + 22, y + 1, 9.0, Bold, Black)];
      y := y - 30;
    }

    /** The footer band at the bottom of the page; the cursor is not used. */
    method DrawFooter()
      modifies this
      ensures drawn == old(drawn) + FooterItems
      ensures y == old(y) && fields == old(fields) && sections == old(sections)
    {
      drawn := drawn + [Rect(0, 0, PageWidth, 28, FooterGray),
                        Text(FooterLegal, Margin, 11, 7.0, Regular, Gray),
                        Text(FooterContact, Margin, 3, 7.0, Regular, Gray)];
    }
  }

  /** The personal details, first part: surname, name, ID number, mobile and email. */
  method DrawPersonalDetails(page: FormPage)
    requires page.fields == []
    modifies page
    ensures page.FieldNames() == PersonalNames
    ensures page.fields == PersonalFields(old(page.y))
    ensures page.drawn == old(page.drawn) + PersonalItems(old(page.y))
    ensures page.y == old(page.y) - 34 - 3 * 32
    ensures page.sections == old(page.sections) + [SectionTitles[0]]
  {
    page.DrawSection("Personal Details");
    page.DrawHalfFields("Surname", "surname", "Name", "name");
    page.DrawHalfFields("ID Number", "id_number", "Mobile Number", "mobile");
    page.DrawFullField("Email Address", "email");
  }

  /** The personal details, second part: street, suburb, city and the province dropdown. */
  method DrawAddress(page: FormPage)
    requires page.FieldNames() == PersonalNames
    modifies page
    ensures page.FieldNames() == PersonalNames + AddressNames
    ensures page.fields == old(page.fields) + AddressFields(old(page.y))
    ensures page.drawn == old(page.drawn) + AddressItems(old(page.y))
    ensures page.y == old(page.y) - 2 * 32 - 38
    ensures page.fields[8] == Dropdown("province", Provinces, "Please select", Col1X, old(page.y) - 2 * 32 - 24, HalfW, FieldH)
    ensures page.sections == old(page.sections)
  {
    page.DrawFullField("Street Address", "street");
    page.DrawHalfFields("Suburb", "suburb", "City", "city");
    page.DrawProvince();
  }

  /** The bank account details: holder, bank name, account type and account number. */
  method DrawBankDetails(page: FormPage)
    requires page.FieldNames() == PersonalNames + AddressNames
    modifies page
    ensures page.FieldNames() == PersonalNames + AddressNames + BankNames
    ensures page.fields == old(page.fields) + BankFields(old(page.y))
    ensures page.drawn == old(page.drawn) + BankItems(old(page.y))
    ensures page.y == old(page.y) - 34 - 3 * 32 - 6
    ensures page.sections == old(page.sections) + [SectionTitles[1]]
  {
    page.DrawSection("Bank Account Details");
    page.DrawFullField("Account Holder", "account_holder");
    page.DrawHalfFields("Bank Name", "bank_name", "Account Type", "account_type");
    page.DrawFullField("Account Number", "account_number");
    page.y := page.y - 6;
  }

  /** The choice of cover and the debit date. */
  method DrawCover(page: FormPage)
    requires page.FieldNames() == PersonalNames + AddressNames + BankNames
    modifies page
    ensures page.FieldNames() == PersonalNames + AddressNames + BankNames + CoverNames
    ensures page.fields == old(page.fields) + CoverFields(old(page.y))
    ensures page.drawn == old(page.drawn) + CoverItems(old(page.y))
    ensures page.y == old(page.y) - 34 - 110
    ensures page.sections == old(page.sections) + [SectionTitles[2]]
  {
    page.DrawSection("Choose Your Cover");
    page.DrawCoverChoice();
  }

  /** The declaration and the agreement box. */
  method DrawDeclarationSection(page: FormPage, width: string -> real) returns (lines: seq<string>)
    requires page.FieldNames() == PersonalNames + AddressNames + BankNames + CoverNames
    modifies page
    ensures page.FieldNames() == PersonalNames + AddressNames + BankNames + CoverNames + AgreementNames
    ensures lines == Wrap(Split(DeclText, ' '), width, FullW as real)
    ensures page.fields == old(page.fields) + DeclarationSectionFields(|lines|, old(page.y))
    ensures page.drawn == old(page.drawn) + DeclarationSectionItems(lines, old(page.y))
    ensures page.y == old(page.y) - 34 - DeclarationHeight(|lines|) - 30
    ensures page.sections == old(page.sections) + [SectionTitles[3]]
  {
    page.DrawSection("Declaration & Debit Order Authorisation");
    assert page.y == old(page.y) - 34;
    DeclWordsSplit();
    lines := page.DrawDeclaration(DeclText, width);
    assert page.y == old(page.y) - 34 - DeclarationHeight(|lines|);
    page.DrawAgreement();
    AppendThree(old(page.drawn), SectionItems("Declaration & Debit Order Authorisation", old(page.y)),
                DeclarationItems(lines, old(page.y) - 34),
                [Text(AgreeCaption, Col1X + 22, old(page.y) - 34 - DeclarationHeight(|lines|) + 1, 9.0, Bold, Black)]);
  }

  /** The signature and date fields. */
  method DrawSignature(page: FormPage)
    requires page.FieldNames() == PersonalNames + AddressNames + BankNames + CoverNames + AgreementNames
    modifies page
    ensures page.FieldNames() == FieldNamesInOrder
    ensures page.fields == old(page.fields) + SignatureFields(old(page.y))
    ensures page.drawn == old(page.drawn) + SignatureItems(old(page.y))
    ensures page.y == old(page.y) - 32
    ensures page.sections == old(page.sections)
  {
    page.DrawHalfFields("Signature (Type full name)", "signature", "Date", "date");
  }

  /** Appending three parts one after the other appends their concatenation. */
  lemma AppendThree<T>(a: seq<T>, b: seq<T>, c: seq<T>, d: seq<T>)
    ensures a + b + c + d == a + (b + c + d)
  {
  }

  /** The applicant's part of the form: personal details, address and bank account. */
  method DrawApplicantDetails(page: FormPage)
    requires page.fields == []
    modifies page
    ensures page.FieldNames() == PersonalNames + AddressNames + BankNames
    ensures page.fields == ApplicantFields(old(page.y))
    ensures page.drawn == old(page.drawn) + ApplicantItems(old(page.y))
    ensures page.y == old(page.y) - 368
    ensures page.sections == old(page.sections) + SectionTitles[..2]
  {
    DrawPersonalDetails(page);
    assert page.y == old(page.y) - 130;
    DrawAddress(page);
    assert page.y == old(page.y) - 232;
    DrawBankDetails(page);
    AppendThree(old(page.drawn), PersonalItems(old(page.y)), AddressItems(old(page.y) - 130), BankItems(old(page.y) - 232));
    AppendThree([], PersonalFields(old(page.y)), AddressFields(old(page.y) - 130), BankFields(old(page.y) - 232));
  }

  /** The closing part: the declaration with the agreement box, then the signature row. */
  method DrawClosing(page: FormPage, width: string -> real) returns (lines: seq<string>)
    requires page.FieldNames() == PersonalNames + AddressNames + BankNames + CoverNames
    modifies page
    ensures lines == Wrap(Split(DeclText, ' '), width, FullW as real)
    ensures page.FieldNames() == FieldNamesInOrder
    ensures page.fields == old(page.fields) + ClosingFields(|lines|, old(page.y))
    ensures page.drawn == old(page.drawn) + ClosingItems(lines, old(page.y))
    ensures page.y == old(page.y) - 96 - DeclarationHeight(|lines|)
    ensures page.sections == old(page.sections) + [SectionTitles[3]]
  {
    lines := DrawDeclarationSection(page, width);
    assert page.y == old(page.y) - 64 - DeclarationHeight(|lines|);
    DrawSignature(page);
  }

  /**
   * `generateFirearmsGuardianPdf`: the whole page. The form gets its nineteen
   * fields in order, the sections come in order, and the cursor ends below
   * the declaration's lines.
   */
  method GenerateFirearmsGuardianPdf(width: string -> real) returns (page: FormPage, lines: seq<string>)
    ensures fresh(page)
    ensures page.FieldNames() == FieldNamesInOrder
    ensures page.sections == SectionTitles
    ensures lines == Wrap(Split(DeclText, ' '), width, FullW as real)
    ensures page.y == 162 - DeclarationHeight(|lines|)
    ensures page.fields == PageFields(|lines|)
    ensures page.drawn == PageItems(lines)
  {
    page := new FormPage();
    DrawApplicantDetails(page);
    assert page.y == PageHeight - 440;
    DrawCover(page);
    assert page.y == PageHeight - 584;
    lines := DrawClosing(page, width);
    page.DrawFooter();
  }

  // ---------------------------------------------------------------------------
  // Properties of the form

  /** The nineteen field names are pairwise distinct. */
  lemma FieldNamesDistinct()
    ensures |FieldNamesInOrder| == 19
    ensures Distinct(FieldNamesInOrder)
  {
    FieldNamesDistinctLow();
    FieldNamesDistinctHigh();
  }

  lemma FieldNamesDistinctLow()
    ensures forall i, j | 0 <= i < 9 && i < j < |FieldNamesInOrder| :: FieldNamesInOrder[i] != FieldNamesInOrder[j]
  {
  }

  lemma FieldNamesDistinctHigh()
    ensures forall i, j | 9 <= i < j < |FieldNamesInOrder| :: FieldNamesInOrder[i] != FieldNamesInOrder[j]
  {
  }

  /** Every piece is a word: non-empty and without a space. */
  ghost predicate Words(ws: seq<string>) {
    forall i | 0 <= i < |ws| :: ws[i] != "" && ' ' !in ws[i]
  }

  lemma {:induction false} WordsAppend(a: seq<string>, b: seq<string>)
    requires Words(a) && Words(b)
    ensures Words(a + b)
  {
    forall i | 0 <= i < |a + b| ensures (a + b)[i] != "" && ' ' !in (a + b)[i] {
      if i < |a| {
        assert (a + b)[i] == a[i];
      } else {
        assert (a + b)[i] == b[i - |a|];
      }
    }
  }

  lemma Sentence1Words() ensures Words(DeclSentence1) {}
  lemma Sentence2Words() ensures Words(DeclSentence2) {}
  lemma Sentence3Words() ensures Words(DeclSentence3) {}
  lemma Sentence4Words() ensures Words(DeclSentence4) {}

  /** The declaration has no empty word, so it splits back into its words. */
  lemma DeclWordsSplit()
    ensures Split(DeclText, ' ') == DeclWords
    ensures AllNonEmpty(DeclWords)
  {
    Sentence1Words();
    Sentence2Words();
    Sentence3Words();
    Sentence4Words();
    WordsAppend(DeclSentence1, DeclSentence2);
    WordsAppend(DeclSentence1 + DeclSentence2, DeclSentence3);
    WordsAppend(DeclSentence1 + DeclSentence2 + DeclSentence3, DeclSentence4);
    assert SpaceFree(DeclWords);
    SplitJoin(DeclWords, ' ');
  }

  /**
   * The declaration as laid out: its lines joined with single spaces are the
   * declaration, every line but the last is full, and every line fits the
   * page's width or is a single word.
   */
  lemma DeclarationLayout(width: string -> real)
    ensures var lines := Wrap(Split(DeclText, ' '), width, FullW as real);
      && Join(lines, " ") == DeclText
      && Greedy(lines, width, FullW as real)
      && AllNonEmpty(lines)
      && (forall i | 0 <= i < |lines| :: FitsOrSingle(lines[i], width, FullW as real))
  {
    DeclWordsSplit();
    WrapProperties(DeclText, width, FullW as real);
  }

  /**
   * On the page as drawn, the declaration's lines follow the 28 items of the
   * header, the applicant's part, the cover and the declaration's band, from
   * height 224 down; the agreement's caption comes right after them.
   */
  lemma PageDeclaration(lines: seq<string>)
    ensures |PageItems(lines)| == 34 + |lines|
    ensures PageItems(lines)[28..28 + |lines|] == DeclarationItems(lines, 224)
    ensures PageItems(lines)[28 + |lines|] == Text(AgreeCaption, Col1X + 22, 225 - DeclarationHeight(|lines|), 9.0, Bold, Black)
  {
    var before := HeaderItems + ApplicantItems(PageHeight - 72) + CoverItems(PageHeight - 440)
                  + SectionItems("Declaration & Debit Order Authorisation", PageHeight - 584);
    var after := [Text(AgreeCaption, Col1X + 22, 225 - DeclarationHeight(|lines|), 9.0, Bold, Black)]
                 + SignatureItems(194 - DeclarationHeight(|lines|)) + FooterItems;
    assert |before| == 28;
    assert PageItems(lines) == before + DeclarationItems(lines, 224) + after;
  }

  /** The province dropdown offers ten options, the first being the prompt. */
  lemma ProvinceOptions()
    ensures |Provinces| == 10 && Provinces[0] == "Please select"
    ensures Distinct(Provinces)
  {
  }
}
