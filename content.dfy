/**
 * What the HTML email and the on-screen preview share: the fallback, the
 * placeholder interpolation of the greeting and the body, and the rule that
 * decides whether a section's content is shown as a list or as prose.
 */
module Content {
  import opened Strings
  import opened Departments
  import opened Templates

  /** `value || fallback` on strings: the empty string is falsy. */
  function Fallback(value: string, fallback: string): (r: string)
    ensures value != "" ==> r == value
    ensures value == "" ==> r == fallback
  {
    if value == "" then fallback else value
  }

  /** The greeting with the first client placeholder replaced by `client`. */
  function Greeting(t: EmailTemplate, client: string): (r: string)
    ensures !Contains(t.greeting, ClientToken) ==> r == t.greeting
  {
    ReplaceFirst(t.greeting, ClientToken, client)
  }

  /**
   * The body with the first agent placeholder replaced by `agent`, and then,
   * in that result, the first client placeholder replaced by `client`.
   */
  function Body(t: EmailTemplate, client: string, agent: string): (r: string)
    ensures !Contains(t.body, AgentToken) && !Contains(t.body, ClientToken) ==> r == t.body
  {
    ReplaceFirst(ReplaceFirst(t.body, AgentToken, agent), ClientToken, client)
  }

  /**
   * A greeting with one client placeholder gets the name in its place; with a
   * brace-free name no placeholder is left.
   */
  lemma {:induction false} GreetingFilled(t: EmailTemplate, client: string, a: string, b: string)
    requires PlaceholderAt(t.greeting, ClientToken, a, b)
    requires '$' !in client
    ensures Greeting(t, client) == a + client + b
    ensures '{' !in client ==> '{' !in Greeting(t, client)
  {
    ReplaceFirstSplice(a, ClientToken, b, client);
  }

  /**
   * A body with one agent placeholder and no client placeholder gets the agent's
   * name in its place; with a brace-free agent name the client replacement then
   * finds nothing, and no placeholder is left.
   */
  lemma {:induction false} BodyFilled(t: EmailTemplate, client: string, agent: string, a: string, b: string)
    requires PlaceholderAt(t.body, AgentToken, a, b)
    requires '$' !in agent && '{' !in agent
    ensures Body(t, client, agent) == a + agent + b
    ensures '{' !in Body(t, client, agent)
  {
    ReplaceFirstSplice(a, AgentToken, b, agent);
    NoHeadNoOccurrence(a + agent + b, ClientToken);
    ReplaceFirstAbsent(a + agent + b, ClientToken, client);
  }

  /** Replacing the one agent placeholder leaves the client replacement to run on the result. */
  lemma {:induction false} AgentReplaced(t: EmailTemplate, client: string, agent: string, a: string, b: string)
    requires PlaceholderAt(t.body, AgentToken, a, b)
    requires '$' !in agent
    ensures Body(t, client, agent) == ReplaceFirst(a + agent + b, ClientToken, client)
  {
    ReplaceFirstSplice(a, AgentToken, b, agent);
  }

  /**
   * The agent placeholder is replaced first, so a client placeholder inside the
   * agent's name is itself filled with the client's name.
   */
  lemma {:induction false} AgentReplacedBeforeClient(t: EmailTemplate, client: string, agent: string,
                                  a: string, b: string, c: string, e: string)
    requires PlaceholderAt(t.body, AgentToken, a, b)
    requires agent == c + ClientToken + e && '{' !in c
    requires '$' !in agent && '$' !in client
    ensures Body(t, client, agent) == a + c + client + e + b
  {
    AgentReplaced(t, client, agent, a, b);
    assert ClientToken[0] == '{';
    ReplaceFirstSpliceInner(a, c, ClientToken, e, b, client);
  }

  /** Only the first client placeholder is replaced: a second one stays in the greeting. */
  lemma {:induction false} GreetingReplacesFirstOnly(t: EmailTemplate, client: string, a: string, m: string, b: string)
    requires t.greeting == a + ClientToken + m + ClientToken + b
    requires '{' !in a && '$' !in client
    ensures Greeting(t, client) == a + client + m + ClientToken + b
  {
    assert t.greeting == a + ClientToken + (m + ClientToken + b);
    ReplaceFirstSplice(a, ClientToken, m + ClientToken + b, client);
  }

  /**
   * The name is not inserted literally: `replace` expands `$&` in it to the
   * matched text, so a client called "$&" leaves the placeholder in place.
   */
  lemma {:induction false} DollarPatternInName(t: EmailTemplate, a: string, b: string)
    requires PlaceholderAt(t.greeting, ClientToken, a, b)
    ensures Greeting(t, "$&") == t.greeting
  {
    ReplaceFirstSpliceAny(a, ClientToken, b, "$&");
    var v := "$&";
    assert v[0] == '$' && v[1] == '&' && v[2..] == "";
    assert v[1] in "$&`'";
    assert Substitution(v[2..], ClientToken, a, b) == "";
    assert Substitution(v, ClientToken, a, b) == ClientToken;
  }

  // ---------------------------------------------------------------------------
  // List or prose

  /** `content.split("\n").filter(Boolean)`: the non-empty lines, in order. */
  function Segments(content: string): (r: seq<string>)
    ensures forall i | 0 <= i < |r| :: r[i] != "" && '\n' !in r[i]
    ensures forall x :: x in r <==> x in Split(content, '\n') && x != ""
  {
    var pieces := Split(content, '\n');
    var r := NonEmpty(pieces);
    assert forall i | 0 <= i < |r| :: r[i] in pieces;
    r
  }

  /**
   * The segments of newline-free lines joined by newlines are those lines
   * with the empty ones dropped, in their order.
   */
  lemma {:induction false} SegmentsOfLines(lines: seq<string>)
    requires |lines| >= 1 && forall i | 0 <= i < |lines| :: '\n' !in lines[i]
    ensures Segments(JoinLines(lines)) == NonEmpty(lines)
  {
    assert "\n" == ['\n'];
    SplitJoin(lines, '\n');
  }

  /** The segments of two blocks of lines, one after the other, are those of the first, then those of the second. */
  lemma {:induction false} SegmentsOfBlocks(a: seq<string>, b: seq<string>)
    requires |a| >= 1 && |b| >= 1
    requires forall i | 0 <= i < |a| :: '\n' !in a[i]
    requires forall i | 0 <= i < |b| :: '\n' !in b[i]
    ensures Segments(JoinLines(a + b)) == Segments(JoinLines(a)) + Segments(JoinLines(b))
  {
    SegmentsOfLines(a + b);
    SegmentsOfLines(a);
    SegmentsOfLines(b);
    NonEmptyAppend(a, b);
  }

  /** How a section's content is shown. */
  datatype Mode = List(items: seq<string>) | Prose(text: string)

  /**
   * More than one non-empty line and no ". " makes a list of those lines;
   * anything else is prose, kept as it is.
   */
  function Classify(content: string): (m: Mode)
    ensures m.List? <==> |Segments(content)| > 1 && !Contains(content, ". ")
    ensures m.List? ==> m.items == Segments(content)
    ensures m.Prose? ==> m.text == content
  {
    var lines := Segments(content);
    if |lines| > 1 && !Contains(content, ". ") then List(lines) else Prose(content)
  }

  /** Lines that qualify as list items. */
  ghost predicate ListLines(lines: seq<string>) {
    |lines| > 1 && forall i | 0 <= i < |lines| :: lines[i] != "" && '\n' !in lines[i] && '.' !in lines[i]
  }

  /** Joining non-empty, full-stop-free lines with newlines gives a list of exactly those lines. */
  lemma {:induction false} ClassifyLines(lines: seq<string>)
    requires ListLines(lines)
    ensures Classify(JoinLines(lines)) == List(lines)
  {
    SplitJoin(lines, '\n');
    assert "\n" == ['\n'];
    JoinExcludes(lines, "\n", '.');
    NoHeadNoOccurrence(JoinLines(lines), ". ");
  }

  /** Content holding ". " is prose, whatever its lines. */
  lemma {:induction false} SentenceIsProse(content: string)
    requires Contains(content, ". ")
    ensures Classify(content) == Prose(content)
  {
  }

  /** Content without a newline is prose. */
  lemma {:induction false} SingleLineIsProse(content: string)
    requires '\n' !in content
    ensures Classify(content) == Prose(content)
  {
    SplitNoSep(content, '\n');
  }

  /** Empty lines do not count: they are dropped before the lines are counted. */
  lemma {:induction false} BlankLinesIgnored(a: string, b: string)
    requires a != "" && b != "" && '\n' !in a && '\n' !in b && '.' !in a && '.' !in b
    ensures Classify(a + "\n\n" + b) == List([a, b])
  {
    SplitFirstPiece(a, '\n', "\n" + b);
    assert a + "\n\n" + b == a + ['\n'] + ("\n" + b);
    SplitFirstPiece("", '\n', b);
    assert "\n" + b == "" + ['\n'] + b;
    SplitNoSep(b, '\n');
    assert Split(a + "\n\n" + b, '\n') == [a, "", b];
    assert NonEmpty([a, "", b]) == [a] + NonEmpty(["", b]);
    assert ["", b][1..] == [b];
    assert '.' !in a + "\n\n" + b;
    NoHeadNoOccurrence(a + "\n\n" + b, ". ");
  }

  // ---------------------------------------------------------------------------
  // On the table

  /**
   * Every greeting of the table holds one client placeholder and no other
   * brace, so a name without `$` lands in its place and, when it has no brace
   * itself, leaves no placeholder behind.
   */
  lemma TableGreetingFilled(d: Department, l: Language, client: string)
    requires '$' !in client
    ensures exists a, b :: Greeting(GetTemplate(d, l), client) == a + client + b
    ensures '{' !in client ==> '{' !in Greeting(GetTemplate(d, l), client)
  {
    TableShape(d, l);
    var a, b :| PlaceholderAt(GetTemplate(d, l).greeting, ClientToken, a, b);
    GreetingFilled(GetTemplate(d, l), client, a, b);
  }

  /**
   * Every section of the table is shown as a list of exactly its lines, except
   * the Firearms Guardian pricing section, which holds sentences and is shown
   * as the prose it is.
   */
  lemma TableSectionsClassified(d: Department, l: Language, i: nat)
    requires GetTemplate(d, l).sections.Some? && i < |GetTemplate(d, l).sections.value|
    ensures var c := GetTemplate(d, l).sections.value[i].content;
      if d == FirearmsGuardian && i == 1 then Classify(c) == Prose(c)
      else Classify(c).List? && JoinLines(Classify(c).items) == c
  {
    match (d, l)
    case (FreeSA, En) => FreeSaEnLists();
    case (FreeSA, Af) => FreeSaAfLists();
    case (TluSA, En) => TluSaEnLists();
    case (TluSA, Af) => TluSaAfLists();
    case (FirearmsGuardian, En) => FirearmsGuardianEnLists(); PricingIsProse();
    case (FirearmsGuardian, Af) => FirearmsGuardianAfLists(); PricingIsProse();
    case (CivilSocietySA, En) => CivilSocietyEnLists();
    case (CivilSocietySA, Af) => CivilSocietyAfLists();
  }

  /** The list sections of each template: non-empty lines without a full stop. */
  lemma FreeSaEnLists()
    ensures Classify(JoinLines(FreeSaEnLines1)) == List(FreeSaEnLines1)
  {
    FreeSaEnLines1At0Stop(); FreeSaEnLines1At0Break(); FreeSaEnLines1At1Stop(); FreeSaEnLines1At1Break(); FreeSaEnLines1At2Stop(); FreeSaEnLines1At2Break(); FreeSaEnLines1At3Stop(); FreeSaEnLines1At3Break();
    ClassifyLines(FreeSaEnLines1);
  }
  lemma FreeSaAfLists()
    ensures Classify(JoinLines(FreeSaAfLines1)) == List(FreeSaAfLines1)
  {
    FreeSaAfLines1At0Stop(); FreeSaAfLines1At0Break(); FreeSaAfLines1At1Stop(); FreeSaAfLines1At1Break(); FreeSaAfLines1At2Stop(); FreeSaAfLines1At2Break(); FreeSaAfLines1At3Stop(); FreeSaAfLines1At3Break();
    ClassifyLines(FreeSaAfLines1);
  }
  lemma TluSaEnLists()
    ensures Classify(JoinLines(TluSaEnLines1)) == List(TluSaEnLines1)
  {
    TluSaEnLines1At0Stop(); TluSaEnLines1At0Break(); TluSaEnLines1At1Stop(); TluSaEnLines1At1Break(); TluSaEnLines1At2Stop(); TluSaEnLines1At2Break(); TluSaEnLines1At3Stop(); TluSaEnLines1At3Break(); TluSaEnLines1At4Stop(); TluSaEnLines1At4Break();
    ClassifyLines(TluSaEnLines1);
  }
  lemma TluSaAfLists()
    ensures Classify(JoinLines(TluSaAfLines1)) == List(TluSaAfLines1)
  {
    TluSaAfLines1At0Stop(); TluSaAfLines1At0Break(); TluSaAfLines1At1Stop(); TluSaAfLines1At1Break(); TluSaAfLines1At2Stop(); TluSaAfLines1At2Break(); TluSaAfLines1At3Stop(); TluSaAfLines1At3Break(); TluSaAfLines1At4Stop(); TluSaAfLines1At4Break();
    ClassifyLines(TluSaAfLines1);
  }
  lemma FirearmsGuardianEnLists()
    ensures Classify(JoinLines(FirearmsGuardianEnLines1)) == List(FirearmsGuardianEnLines1)
  {
    FirearmsGuardianEnLines1At0Stop(); FirearmsGuardianEnLines1At0Break(); FirearmsGuardianEnLines1At1Stop(); FirearmsGuardianEnLines1At1Break(); FirearmsGuardianEnLines1At2Stop(); FirearmsGuardianEnLines1At2Break(); FirearmsGuardianEnLines1At3Stop(); FirearmsGuardianEnLines1At3Break(); FirearmsGuardianEnLines1At4Stop(); FirearmsGuardianEnLines1At4Break();
    ClassifyLines(FirearmsGuardianEnLines1);
  }
  lemma FirearmsGuardianAfLists()
    ensures Classify(JoinLines(FirearmsGuardianAfLines1)) == List(FirearmsGuardianAfLines1)
  {
    FirearmsGuardianAfLines1At0Stop(); FirearmsGuardianAfLines1At0Break(); FirearmsGuardianAfLines1At1Stop(); FirearmsGuardianAfLines1At1Break(); FirearmsGuardianAfLines1At2Stop(); FirearmsGuardianAfLines1At2Break(); FirearmsGuardianAfLines1At3Stop(); FirearmsGuardianAfLines1At3Break(); FirearmsGuardianAfLines1At4Stop(); FirearmsGuardianAfLines1At4Break();
    ClassifyLines(FirearmsGuardianAfLines1);
  }
  lemma CivilSocietyEnLists()
    ensures Classify(JoinLines(CivilSocietyEnLines1)) == List(CivilSocietyEnLines1)
    ensures Classify(JoinLines(CivilSocietyEnLines2)) == List(CivilSocietyEnLines2)
  {
    CivilSocietyEnLines1At0Stop(); CivilSocietyEnLines1At0Break(); CivilSocietyEnLines1At1Stop(); CivilSocietyEnLines1At1Break(); CivilSocietyEnLines1At2Stop(); CivilSocietyEnLines1At2Break();
    ClassifyLines(CivilSocietyEnLines1);
    CivilSocietyEnLines2At0Stop(); CivilSocietyEnLines2At0Break(); CivilSocietyEnLines2At1Stop(); CivilSocietyEnLines2At1Break(); CivilSocietyEnLines2At2Stop(); CivilSocietyEnLines2At2Break();
    ClassifyLines(CivilSocietyEnLines2);
  }
  lemma CivilSocietyAfLists()
    ensures Classify(JoinLines(CivilSocietyAfLines1)) == List(CivilSocietyAfLines1)
    ensures Classify(JoinLines(CivilSocietyAfLines2)) == List(CivilSocietyAfLines2)
  {
    CivilSocietyAfLines1At0Stop(); CivilSocietyAfLines1At0Break(); CivilSocietyAfLines1At1Stop(); CivilSocietyAfLines1At1Break(); CivilSocietyAfLines1At2Stop(); CivilSocietyAfLines1At2Break();
    ClassifyLines(CivilSocietyAfLines1);
    CivilSocietyAfLines2At0Stop(); CivilSocietyAfLines2At0Break(); CivilSocietyAfLines2At1Stop(); CivilSocietyAfLines2At1Break(); CivilSocietyAfLines2At2Stop(); CivilSocietyAfLines2At2Break();
    ClassifyLines(CivilSocietyAfLines2);
  }

  /** The Firearms Guardian pricing sections hold ". ", so they are prose in both languages. */
  lemma PricingIsProse()
    ensures Classify(JoinLines(FirearmsGuardianEnLines2)) == Prose(JoinLines(FirearmsGuardianEnLines2))
    ensures Classify(JoinLines(FirearmsGuardianAfLines2)) == Prose(JoinLines(FirearmsGuardianAfLines2))
  {
    PricingNoteSentence();
    JoinContains(FirearmsGuardianEnLines2, "\n", 3, ". ");
    JoinContains(FirearmsGuardianAfLines2, "\n", 3, ". ");
    SentenceIsProse(JoinLines(FirearmsGuardianEnLines2));
    SentenceIsProse(JoinLines(FirearmsGuardianAfLines2));
  }

  /** The last line of each pricing section, the underwriting note, holds ". ". */
  lemma PricingNoteSentence()
    ensures Contains(FirearmsGuardianEnLines2[3], ". ") && Contains(FirearmsGuardianAfLines2[3], ". ")
  {
    assert At(FirearmsGuardianEnLines2[3], ". ", 55);
    assert At(FirearmsGuardianAfLines2[3], ". ", 60);
  }
}
