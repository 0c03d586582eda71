/**
 * The email templates: one per department and language, each with a subject,
 * a greeting and a body holding the `{{clientName}}` / `{{agentName}}`
 * placeholders, optional sections, call-to-action buttons, optional bank
 * details and a sign-off.
 *
 * Long texts are written as concatenations of short literals and multi-line
 * section contents as their lines joined with a newline; the strings are the
 * table's own, character for character.
 */
module Templates {
  import opened Wrappers
  import opened Strings
  import opened Departments

  datatype Section = Section(heading: string, content: string)

  datatype Button = Button(text: string, link: string)

  datatype BankRow = BankRow(key: string, value: string)

  datatype BankDetails = BankDetails(title: string, rows: seq<BankRow>, proofNote: string)

  datatype Footer = Footer(closing: string, department: string)

  datatype EmailTemplate = EmailTemplate(
    subject: string,
    greeting: string,
    body: string,
    sections: Option<seq<Section>>,
    buttons: seq<Button>,
    bankDetails: Option<BankDetails>,
    footer: Footer)

  /** The placeholder for the recipient's name. */
  const ClientToken: string := "{{clientName}}"

  /** The placeholder for the sending agent's name. */
  const AgentToken: string := "{{agentName}}"

  /** `s` is `a`, the placeholder `token`, then `b`, with no other brace around it. */
  ghost predicate PlaceholderAt(s: string, token: string, a: string, b: string) {
    s == a + token + b && '{' !in a && '{' !in b
  }

  /** `s` holds `token` once and no other placeholder. */
  ghost predicate OnePlaceholder(s: string, token: string) {
    exists a, b :: PlaceholderAt(s, token, a, b)
  }

  /** Multi-line text: its lines joined with a newline. */
  function JoinLines(lines: seq<string>): string {
    Join(lines, "\n")
  }

  /** The template for a department in a language: its subject starts with the department's identifier. */
  function GetTemplate(d: Department, l: Language): (t: EmailTemplate)
    ensures StartsWith(t.subject, DepartmentName(d) + " - ")
  {
    match (d, l)
    case (FreeSA, En) => PrefixStarts("Free SA - ", "Your Contribution Details"); FreeSaEn
    case (FreeSA, Af) => PrefixStarts("Free SA - ", "Jou Bydrae-besonderhede"); FreeSaAf
    case (TluSA, En) => PrefixStarts("TLU SA - ", "Membership Information"); TluSaEn
    case (TluSA, Af) => PrefixStarts("TLU SA - ", "Lidmaatskap-inligting"); TluSaAf
    case (FirearmsGuardian, En) => PrefixStarts("Firearms Guardian - ", "Your Application Details"); FirearmsGuardianEn
    case (FirearmsGuardian, Af) => PrefixStarts("Firearms Guardian - ", "Jou Aansoek-besonderhede"); FirearmsGuardianAf
    case (CivilSocietySA, En) => PrefixStarts("Civil Society SA - ", "How to Get Involved"); CivilSocietyEn
    case (CivilSocietySA, Af) => PrefixStarts("Civil Society SA - ", "Hoe Om Betrokke te Raak"); CivilSocietyAf
  }

  /** Lines of section 1 of Free SA (en). */
  const FreeSaEnLines1: seq<string> := [
    "Formal submissions to " + "Parliament on proposed laws",
    "PAIA applications to access " + "government information",
    "Organised public comment " + "campaigns on legislation",
    "The Empower Education Fund " + "and Young Leaders Awards"
  ]

  /** The body of Free SA (en) after the agent placeholder, in pieces. */
  const FreeSaEnText: seq<string> := [
    " from Free SA.\n\nFree SA helps " + "ordinary South Africans ",
    "participate in lawmaking. We " + "submit formal comments on ",
    "proposed legislation, file " + "PAIA applications, and run ",
    "structured public " + "participation campaigns. To ",
    "date, we have processed over " + "2 million public comments on ",
    "behalf of South Africans.\n\n" + "Your contribution funds:"
  ]

  /** Free SA, English. */
  const FreeSaEn: EmailTemplate := EmailTemplate(
    subject := "Free SA - " + "Your Contribution Details",
    greeting := "Hello " + ClientToken + ",",
    body := "Thank you for chatting with " + AgentToken + Concat(FreeSaEnText),
    sections := Some([
      Section("", JoinLines(FreeSaEnLines1))]),
    buttons := [
      Button("Make a Contribution", "https://www.freesa.org.za/donate/")],
    bankDetails := Some(BankDetails(
      "Bank Details",
      [BankRow("Bank", "Capitec Business"),
        BankRow("Account Name", "Foundation for Rights of Expression and Equality NPC"),
        BankRow("Account Number", "1053038372"),
        BankRow("Branch Code", "450105")],
      "Please email your proof of payment to memberships@freesa.org.za so we can confirm your contribution.")),
    footer := Footer("Kind regards,", "Free SA Team"))

  /** Lines of section 1 of Free SA (af). */
  const FreeSaAfLines1: seq<string> := [
    "Formele voorleggings aan die " + "Parlement oor voorgestelde " + "wette",
    "PAIA-aansoeke om toegang tot " + "regeringsinligting te kry",
    "Georganiseerde openbare " + "kommentaar-veldtogte",
    "Die Empower Onderwysfonds en " + "Jong Leiers-toekennings"
  ]

  /** The body of Free SA (af) after the agent placeholder, in pieces. */
  const FreeSaAfText: seq<string> := [
    " van Free SA gesels het.\n\n" + "Free SA help gewone ",
    "Suid-Afrikaners om aan " + "wetgewing deel te neem. Ons ",
    "dien formele kommentaar in op " + "voorgestelde wette, rig ",
    "PAIA-aansoeke, en bestuur " + "gestruktureerde openbare ",
    "deelname-veldtogte. Tot op " + "hede het ons meer as 2 ",
    "miljoen openbare kommentare " + "namens Suid-Afrikaners ",
    "verwerk.\n\nJou bydrae befonds:"
  ]

  /** Free SA, Afrikaans. */
  const FreeSaAf: EmailTemplate := EmailTemplate(
    subject := "Free SA - " + "Jou Bydrae-besonderhede",
    greeting := "Hallo " + ClientToken + ",",
    body := "Dankie dat jy met " + AgentToken + Concat(FreeSaAfText),
    sections := Some([
      Section("", JoinLines(FreeSaAfLines1))]),
    buttons := [
      Button("Maak 'n Bydrae", "https://www.freesa.org.za/donate/")],
    bankDetails := Some(BankDetails(
      "Bankbesonderhede",
      [BankRow("Bank", "Capitec Business"),
        BankRow("Rekeningnaam", "Foundation for Rights of Expression and Equality NPC"),
        BankRow("Rekeningnommer", "1053038372"),
        BankRow("Takkode", "450105")],
      "Stuur asseblief jou betalingsbewys na memberships@freesa.org.za sodat ons jou bydrae kan bevestig.")),
    footer := Footer("Vriendelike groete,", "Free SA Span"))

  /** Lines of section 1 of TLU SA (en). */
  const TluSaEnLines1: seq<string> := [
    "Advisory Service for labour, " + "legal, and compliance matters",
    "Financial Wellbeing Desk and " + "Business How-To support",
    "Pitkos newsletter with policy " + "updates and gazette " + "announcements",
    "Exclusive partner benefits " + "through LWO and FINCO",
    "Direct representation when " + "legislation threatens your " + "livelihood"
  ]

  /** The body of TLU SA (en) after the agent placeholder, in pieces. */
  const TluSaEnText: seq<string> := [
    " from TLU SA.\n\nTLU SA " + "represents commercial farmers ",
    "on property rights, labour " + "affairs, security, and ",
    "agricultural policy. We " + "engage directly with ",
    "government on legislation " + "that affects farming ",
    "operations and land ownership."
  ]

  /** TLU SA, English. */
  const TluSaEn: EmailTemplate := EmailTemplate(
    subject := "TLU SA - " + "Membership Information",
    greeting := "Good day " + ClientToken + ",",
    body := "Thank you for speaking with " + AgentToken + Concat(TluSaEnText),
    sections := Some([
      Section("What You Get as a Member", JoinLines(TluSaEnLines1))]),
    buttons := [
      Button("Download Membership Form", "https://www.tlu.co.za/wp-content/uploads/2025/05/Ondersteuner_2025.pdf")],
    bankDetails := Some(BankDetails(
      "Bank Details",
      [BankRow("Bank", "ABSA"),
        BankRow("Account Name", "TLU Suid Afrika"),
        BankRow("Account Number", "4050400686"),
        BankRow("Branch Code", "632005")],
      "Please email your completed form and proof of payment to info@tlu.co.za so we can activate your membership.")),
    footer := Footer("Warm regards,", "TLU SA Membership Team"))

  /** Lines of section 1 of TLU SA (af). */
  const TluSaAfLines1: seq<string> := [
    "Adviesdiens vir arbeids-, " + "regs- en nakomingsake",
    "Finansiele Welstandtoonbank " + "en Besigheid " + "Hoe-Om-ondersteuning",
    "Pitkos-nuusbrief met " + "beleidopdaterings en " + "staatskoerant-aankondigings",
    "Eksklusiewe vennootvoordele " + "deur LWO en FINCO",
    "Direkte verteenwoordiging " + "wanneer wetgewing u bestaan " + "bedreig"
  ]

  /** The body of TLU SA (af) after the agent placeholder, in pieces. */
  const TluSaAfText: seq<string> := [
    " van TLU SA gesels het.\n\nTLU " + "SA verteenwoordig kommersiële ",
    "boere oor eiendomsregte, " + "arbeidsake, sekuriteit en ",
    "landboubeleid. Ons skakel " + "direk met die regering oor ",
    "wetgewing wat " + "boerdery-bedrywighede en ",
    "grondbesit raak."
  ]

  /** TLU SA, Afrikaans. */
  const TluSaAf: EmailTemplate := EmailTemplate(
    subject := "TLU SA - " + "Lidmaatskap-inligting",
    greeting := "Goeie dag " + ClientToken + ",",
    body := "Dankie dat u met " + AgentToken + Concat(TluSaAfText),
    sections := Some([
      Section("Wat U Kry as Lid", JoinLines(TluSaAfLines1))]),
    buttons := [
      Button("Laai Lidmaatskapvorm Af", "https://www.tlu.co.za/wp-content/uploads/2025/05/Ondersteuner_2025.pdf")],
    bankDetails := Some(BankDetails(
      "Bankbesonderhede",
      [BankRow("Bank", "ABSA"),
        BankRow("Rekeningnaam", "TLU Suid Afrika"),
        BankRow("Rekeningnommer", "4050400686"),
        BankRow("Takkode", "632005")],
      "Stuur asseblief u voltooide vorm en betalingsbewys na info@tlu.co.za sodat ons u lidmaatskap kan aktiveer.")),
    footer := Footer("Vriendelike groete,", "TLU SA Lidmaatskapspan"))

  /** Lines of section 1 of Firearms Guardian (en). */
  const FirearmsGuardianEnLines1: seq<string> := [
    "24/7 access to qualified " + "firearm attorneys",
    "Legal assistance up to " + "R300,000 per case",
    "Liability cover up to " + "R300,000 per year",
    "Coverage for self-defence, " + "accidental discharge, hunting "
      + "incidents, and FCA prosecution",
    "Coverage extends to your " + "immediate family"
  ]

  /** Lines of section 2 of Firearms Guardian (en). */
  const FirearmsGuardianEnLines2: seq<string> := [
    "Option 1: R135.00/month",
    "Option 2: R245.00/month",
    "",
    "Administered by Firearms " + "Guardian (Pty) Ltd (FSP " + "47115). Underwritten by "
      + "GENRIC Insurance Company " + "Limited (FSP 43638)."
  ]

  /** The body of Firearms Guardian (en) after the agent placeholder, in pieces. */
  const FirearmsGuardianEnText: seq<string> := [
    " from Firearms Guardian.\n\n" + "Firearms Guardian provides ",
    "legal protection and " + "liability insurance for ",
    "lawful firearm owners. If you " + "face a legal situation ",
    "involving your firearm, we " + "connect you with qualified ",
    "attorneys and cover your " + "legal costs."
  ]

  /** Firearms Guardian, English. */
  const FirearmsGuardianEn: EmailTemplate := EmailTemplate(
    subject := "Firearms Guardian - " + "Your Application Details",
    greeting := "Hello " + ClientToken + ",",
    body := "Thank you for speaking with " + AgentToken + Concat(FirearmsGuardianEnText),
    sections := Some([
      Section("What You Get", JoinLines(FirearmsGuardianEnLines1)),
      Section("Pricing", JoinLines(FirearmsGuardianEnLines2))]),
    buttons := [
      Button("Submit Your Application", "https://firearmsguardian.co.za/join-now/")],
    bankDetails := None,
    footer := Footer("Regards,", "Firearms Guardian"))

  /** Lines of section 1 of Firearms Guardian (af). */
  const FirearmsGuardianAfLines1: seq<string> := [
    "24/7 toegang tot " + "gekwalifiseerde " + "vuurwapenprokureurs",
    "Regsbystand tot R300 000 per " + "saak",
    "Aanspreeklikheidsdekking tot " + "R300 000 per jaar",
    "Dekking vir selfverdediging, " + "toevallige ontlading, " + "jagvoorvalle en "
      + "Vuurwapenbeherwet-vervolging",
    "Dekking sluit jou " + "onmiddellike gesin in"
  ]

  /** Lines of section 2 of Firearms Guardian (af). */
  const FirearmsGuardianAfLines2: seq<string> := [
    "Opsie 1: R135.00/maand",
    "Opsie 2: R245.00/maand",
    "",
    "Geadministreer deur Firearms " + "Guardian (Edms) Bpk (FSP " + "47115). Onderskryf deur "
      + "GENRIC Insurance Company " + "Limited (FSP 43638)."
  ]

  /** The body of Firearms Guardian (af) after the agent placeholder, in pieces. */
  const FirearmsGuardianAfText: seq<string> := [
    " van Firearms Guardian gesels " + "het.\n\nFirearms Guardian bied ",
    "regsbeskerming en " + "aanspreeklikheidsdekking vir ",
    "wettige vuurwapenaars. As jy " + "'n regskwessie het wat jou ",
    "vuurwapen betrek, skakel ons " + "jou met gekwalifiseerde ",
    "prokureurs en dek ons jou " + "regskoste."
  ]

  /** Firearms Guardian, Afrikaans. */
  const FirearmsGuardianAf: EmailTemplate := EmailTemplate(
    subject := "Firearms Guardian - " + "Jou Aansoek-besonderhede",
    greeting := "Hallo " + ClientToken + ",",
    body := "Dankie dat jy met " + AgentToken + Concat(FirearmsGuardianAfText),
    sections := Some([
      Section("Wat Jy Kry", JoinLines(FirearmsGuardianAfLines1)),
      Section("Pryse", JoinLines(FirearmsGuardianAfLines2))]),
    buttons := [
      Button("Dien Jou Aansoek In", "https://firearmsguardian.co.za/join-now/")],
    bankDetails := None,
    footer := Footer("Groete,", "Firearms Guardian"))

  /** Lines of section 1 of Civil Society SA (en). */
  const CivilSocietyEnLines1: seq<string> := [
    "Legal Firearms Save Lives - " + "opposing the removal of " + "self-defence as a valid "
      + "reason to own a firearm",
    "Safety Tax Credits - " + "motivating for private " + "security costs to be tax "
      + "deductible",
    "Protect Those Who Protect Us " + "- opposing PSIRA regulations "
      + "that would restrict private " + "security equipment"
  ]

  /** Lines of section 2 of Civil Society SA (en). */
  const CivilSocietyEnLines2: seq<string> := [
    "Legal research for formal " + "parliamentary submissions",
    "PAIA applications to access " + "government records",
    "Organised petition campaigns " + "with verified signatures"
  ]

  /** The body of Civil Society SA (en) after the agent placeholder, in pieces. */
  const CivilSocietyEnText: seq<string> := [
    " from Civil Society South " + "Africa.\n\nCivil Society SA ",
    "runs formal petition " + "campaigns and submits legal ",
    "arguments to Parliament on " + "legislation that affects ",
    "public safety. We focus on " + "three active campaigns:"
  ]

  /** Civil Society SA, English. */
  const CivilSocietyEn: EmailTemplate := EmailTemplate(
    subject := "Civil Society SA - " + "How to Get Involved",
    greeting := "Hello " + ClientToken + ",",
    body := "Thank you for chatting with " + AgentToken + Concat(CivilSocietyEnText),
    sections := Some([
      Section("Current Campaigns", JoinLines(CivilSocietyEnLines1)),
      Section("What Your Contribution Funds", JoinLines(CivilSocietyEnLines2))]),
    buttons := [
      Button("Sign Our Petitions", "https://civilsocietysa.co.za/#campaigns")],
    bankDetails := None,
    footer := Footer("Regards,", "Civil Society South Africa"))

  /** Lines of section 1 of Civil Society SA (af). */
  const CivilSocietyAfLines1: seq<string> := [
    "Wettige Vuurwapens Red Lewens " + "- teen die verwydering van "
      + "selfverdediging as rede om 'n " + "vuurwapen te besit",
    "Veiligheids-belastingkrediet " + "- dat privaat " + "sekuriteitskoste "
      + "belastingaftrekbaar moet wees",
    "Beskerm Die Wat Ons Beskerm - " + "teen PSIRA-regulasies wat " + "privaat sekuriteit se "
      + "toerusting wil beperk"
  ]

  /** Lines of section 2 of Civil Society SA (af). */
  const CivilSocietyAfLines2: seq<string> := [
    "Regsnavorsing vir formele " + "parlementere voorleggings",
    "PAIA-aansoeke om toegang tot " + "regeringsrekords te kry",
    "Georganiseerde " + "petisie-veldtogte met " + "geverifieerde handtekeninge"
  ]

  /** The body of Civil Society SA (af) after the agent placeholder, in pieces. */
  const CivilSocietyAfText: seq<string> := [
    " van Civil Society South " + "Africa gesels het.\n\nCivil ",
    "Society SA bestuur formele " + "petisie-veldtogte en dien ",
    "regsargumente by die " + "Parlement in oor wetgewing ",
    "wat openbare veiligheid raak. " + "Ons fokus op drie aktiewe ",
    "veldtogte:"
  ]

  /** Civil Society SA, Afrikaans. */
  const CivilSocietyAf: EmailTemplate := EmailTemplate(
    subject := "Civil Society SA - " + "Hoe Om Betrokke te Raak",
    greeting := "Hallo " + ClientToken + ",",
    body := "Dankie dat jy met " + AgentToken + Concat(CivilSocietyAfText),
    sections := Some([
      Section("Huidige Veldtogte", JoinLines(CivilSocietyAfLines1)),
      Section("Wat Jou Bydrae Befonds", JoinLines(CivilSocietyAfLines2))]),
    buttons := [
      Button("Teken Ons Petisies", "https://civilsocietysa.co.za/#campaigns")],
    bankDetails := None,
    footer := Footer("Groete,", "Civil Society South Africa"))

  // ---------------------------------------------------------------------------
  // Placeholders in the bodies and list lines, piece by piece

  /** No brace in the pieces of the Free SA (en) body. */
  lemma FreeSaEnText0() ensures '{' !in FreeSaEnText[0] {}
  lemma FreeSaEnText1() ensures '{' !in FreeSaEnText[1] {}
  lemma FreeSaEnText2() ensures '{' !in FreeSaEnText[2] {}
  lemma FreeSaEnText3() ensures '{' !in FreeSaEnText[3] {}
  lemma FreeSaEnText4() ensures '{' !in FreeSaEnText[4] {}
  lemma FreeSaEnText5() ensures '{' !in FreeSaEnText[5] {}

  /** No brace in the pieces of the Free SA (af) body. */
  lemma FreeSaAfText0() ensures '{' !in FreeSaAfText[0] {}
  lemma FreeSaAfText1() ensures '{' !in FreeSaAfText[1] {}
  lemma FreeSaAfText2() ensures '{' !in FreeSaAfText[2] {}
  lemma FreeSaAfText3() ensures '{' !in FreeSaAfText[3] {}
  lemma FreeSaAfText4() ensures '{' !in FreeSaAfText[4] {}
  lemma FreeSaAfText5() ensures '{' !in FreeSaAfText[5] {}
  lemma FreeSaAfText6() ensures '{' !in FreeSaAfText[6] {}

  /** No brace in the pieces of the TLU SA (en) body. */
  lemma TluSaEnText0() ensures '{' !in TluSaEnText[0] {}
  lemma TluSaEnText1() ensures '{' !in TluSaEnText[1] {}
  lemma TluSaEnText2() ensures '{' !in TluSaEnText[2] {}
  lemma TluSaEnText3() ensures '{' !in TluSaEnText[3] {}
  lemma TluSaEnText4() ensures '{' !in TluSaEnText[4] {}

  /** No brace in the pieces of the TLU SA (af) body. */
  lemma TluSaAfText0() ensures '{' !in TluSaAfText[0] {}
  lemma TluSaAfText1() ensures '{' !in TluSaAfText[1] {}
  lemma TluSaAfText2() ensures '{' !in TluSaAfText[2] {}
  lemma TluSaAfText3() ensures '{' !in TluSaAfText[3] {}
  lemma TluSaAfText4() ensures '{' !in TluSaAfText[4] {}

  /** No brace in the pieces of the Firearms Guardian (en) body. */
  lemma FirearmsGuardianEnText0() ensures '{' !in FirearmsGuardianEnText[0] {}
  lemma FirearmsGuardianEnText1() ensures '{' !in FirearmsGuardianEnText[1] {}
  lemma FirearmsGuardianEnText2() ensures '{' !in FirearmsGuardianEnText[2] {}
  lemma FirearmsGuardianEnText3() ensures '{' !in FirearmsGuardianEnText[3] {}
  lemma FirearmsGuardianEnText4() ensures '{' !in FirearmsGuardianEnText[4] {}

  /** No brace in the pieces of the Firearms Guardian (af) body. */
  lemma FirearmsGuardianAfText0() ensures '{' !in FirearmsGuardianAfText[0] {}
  lemma FirearmsGuardianAfText1() ensures '{' !in FirearmsGuardianAfText[1] {}
  lemma FirearmsGuardianAfText2() ensures '{' !in FirearmsGuardianAfText[2] {}
  lemma FirearmsGuardianAfText3() ensures '{' !in FirearmsGuardianAfText[3] {}
  lemma FirearmsGuardianAfText4() ensures '{' !in FirearmsGuardianAfText[4] {}

  /** No brace in the pieces of the Civil Society SA (en) body. */
  lemma CivilSocietyEnText0() ensures '{' !in CivilSocietyEnText[0] {}
  lemma CivilSocietyEnText1() ensures '{' !in CivilSocietyEnText[1] {}
  lemma CivilSocietyEnText2() ensures '{' !in CivilSocietyEnText[2] {}
  lemma CivilSocietyEnText3() ensures '{' !in CivilSocietyEnText[3] {}

  /** No brace in the pieces of the Civil Society SA (af) body. */
  lemma CivilSocietyAfText0() ensures '{' !in CivilSocietyAfText[0] {}
  lemma CivilSocietyAfText1() ensures '{' !in CivilSocietyAfText[1] {}
  lemma CivilSocietyAfText2() ensures '{' !in CivilSocietyAfText[2] {}
  lemma CivilSocietyAfText3() ensures '{' !in CivilSocietyAfText[3] {}
  lemma CivilSocietyAfText4() ensures '{' !in CivilSocietyAfText[4] {}

  /** Each line of FreeSaEnLines1 is not empty and holds no full stop and no newline. */
  lemma FreeSaEnLines1At0Stop() ensures FreeSaEnLines1[0] != "" && '.' !in FreeSaEnLines1[0] {}
  lemma FreeSaEnLines1At0Break() ensures '\n' !in FreeSaEnLines1[0] {}
  lemma FreeSaEnLines1At1Stop() ensures FreeSaEnLines1[1] != "" && '.' !in FreeSaEnLines1[1] {}
  lemma FreeSaEnLines1At1Break() ensures '\n' !in FreeSaEnLines1[1] {}
  lemma FreeSaEnLines1At2Stop() ensures FreeSaEnLines1[2] != "" && '.' !in FreeSaEnLines1[2] {}
  lemma FreeSaEnLines1At2Break() ensures '\n' !in FreeSaEnLines1[2] {}
  lemma FreeSaEnLines1At3Stop() ensures FreeSaEnLines1[3] != "" && '.' !in FreeSaEnLines1[3] {}
  lemma FreeSaEnLines1At3Break() ensures '\n' !in FreeSaEnLines1[3] {}

  /** Each line of FreeSaAfLines1 is not empty and holds no full stop and no newline. */
  lemma FreeSaAfLines1At0Stop() ensures FreeSaAfLines1[0] != "" && '.' !in FreeSaAfLines1[0] {}
  lemma FreeSaAfLines1At0Break() ensures '\n' !in FreeSaAfLines1[0] {}
  lemma FreeSaAfLines1At1Stop() ensures FreeSaAfLines1[1] != "" && '.' !in FreeSaAfLines1[1] {}
  lemma FreeSaAfLines1At1Break() ensures '\n' !in FreeSaAfLines1[1] {}
  lemma FreeSaAfLines1At2Stop() ensures FreeSaAfLines1[2] != "" && '.' !in FreeSaAfLines1[2] {}
  lemma FreeSaAfLines1At2Break() ensures '\n' !in FreeSaAfLines1[2] {}
  lemma FreeSaAfLines1At3Stop() ensures FreeSaAfLines1[3] != "" && '.' !in FreeSaAfLines1[3] {}
  lemma FreeSaAfLines1At3Break() ensures '\n' !in FreeSaAfLines1[3] {}

  /** Each line of TluSaEnLines1 is not empty and holds no full stop and no newline. */
  lemma TluSaEnLines1At0Stop() ensures TluSaEnLines1[0] != "" && '.' !in TluSaEnLines1[0] {}
  lemma TluSaEnLines1At0Break() ensures '\n' !in TluSaEnLines1[0] {}
  lemma TluSaEnLines1At1Stop() ensures TluSaEnLines1[1] != "" && '.' !in TluSaEnLines1[1] {}
  lemma TluSaEnLines1At1Break() ensures '\n' !in TluSaEnLines1[1] {}
  lemma TluSaEnLines1At2Stop() ensures TluSaEnLines1[2] != "" && '.' !in TluSaEnLines1[2] {}
  lemma TluSaEnLines1At2Break() ensures '\n' !in TluSaEnLines1[2] {}
  lemma TluSaEnLines1At3Stop() ensures TluSaEnLines1[3] != "" && '.' !in TluSaEnLines1[3] {}
  lemma TluSaEnLines1At3Break() ensures '\n' !in TluSaEnLines1[3] {}
  lemma TluSaEnLines1At4Stop() ensures TluSaEnLines1[4] != "" && '.' !in TluSaEnLines1[4] {}
  lemma TluSaEnLines1At4Break() ensures '\n' !in TluSaEnLines1[4] {}

  /** Each line of TluSaAfLines1 is not empty and holds no full stop and no newline. */
  lemma TluSaAfLines1At0Stop() ensures TluSaAfLines1[0] != "" && '.' !in TluSaAfLines1[0] {}
  lemma TluSaAfLines1At0Break() ensures '\n' !in TluSaAfLines1[0] {}
  lemma TluSaAfLines1At1Stop() ensures TluSaAfLines1[1] != "" && '.' !in TluSaAfLines1[1] {}
  lemma TluSaAfLines1At1Break() ensures '\n' !in TluSaAfLines1[1] {}
  lemma TluSaAfLines1At2Stop() ensures TluSaAfLines1[2] != "" && '.' !in TluSaAfLines1[2] {}
  lemma TluSaAfLines1At2Break() ensures '\n' !in TluSaAfLines1[2] {}
  lemma TluSaAfLines1At3Stop() ensures TluSaAfLines1[3] != "" && '.' !in TluSaAfLines1[3] {}
  lemma TluSaAfLines1At3Break() ensures '\n' !in TluSaAfLines1[3] {}
  lemma TluSaAfLines1At4Stop() ensures TluSaAfLines1[4] != "" && '.' !in TluSaAfLines1[4] {}
  lemma TluSaAfLines1At4Break() ensures '\n' !in TluSaAfLines1[4] {}

  /** Each line of FirearmsGuardianEnLines1 is not empty and holds no full stop and no newline. */
  lemma FirearmsGuardianEnLines1At0Stop() ensures FirearmsGuardianEnLines1[0] != "" && '.' !in FirearmsGuardianEnLines1[0] {}
  lemma FirearmsGuardianEnLines1At0Break() ensures '\n' !in FirearmsGuardianEnLines1[0] {}
  lemma FirearmsGuardianEnLines1At1Stop() ensures FirearmsGuardianEnLines1[1] != "" && '.' !in FirearmsGuardianEnLines1[1] {}
  lemma FirearmsGuardianEnLines1At1Break() ensures '\n' !in FirearmsGuardianEnLines1[1] {}
  lemma FirearmsGuardianEnLines1At2Stop() ensures FirearmsGuardianEnLines1[2] != "" && '.' !in FirearmsGuardianEnLines1[2] {}
  lemma FirearmsGuardianEnLines1At2Break() ensures '\n' !in FirearmsGuardianEnLines1[2] {}
  lemma FirearmsGuardianEnLines1At3Stop() ensures FirearmsGuardianEnLines1[3] != "" && '.' !in FirearmsGuardianEnLines1[3] {}
  lemma FirearmsGuardianEnLines1At3Break() ensures '\n' !in FirearmsGuardianEnLines1[3] {}
  lemma FirearmsGuardianEnLines1At4Stop() ensures FirearmsGuardianEnLines1[4] != "" && '.' !in FirearmsGuardianEnLines1[4] {}
  lemma FirearmsGuardianEnLines1At4Break() ensures '\n' !in FirearmsGuardianEnLines1[4] {}

  /** Each line of FirearmsGuardianAfLines1 is not empty and holds no full stop and no newline. */
  lemma FirearmsGuardianAfLines1At0Stop() ensures FirearmsGuardianAfLines1[0] != "" && '.' !in FirearmsGuardianAfLines1[0] {}
  lemma FirearmsGuardianAfLines1At0Break() ensures '\n' !in FirearmsGuardianAfLines1[0] {}
  lemma FirearmsGuardianAfLines1At1Stop() ensures FirearmsGuardianAfLines1[1] != "" && '.' !in FirearmsGuardianAfLines1[1] {}
  lemma FirearmsGuardianAfLines1At1Break() ensures '\n' !in FirearmsGuardianAfLines1[1] {}
  lemma FirearmsGuardianAfLines1At2Stop() ensures FirearmsGuardianAfLines1[2] != "" && '.' !in FirearmsGuardianAfLines1[2] {}
  lemma FirearmsGuardianAfLines1At2Break() ensures '\n' !in FirearmsGuardianAfLines1[2] {}
  lemma FirearmsGuardianAfLines1At3Stop() ensures FirearmsGuardianAfLines1[3] != "" && '.' !in FirearmsGuardianAfLines1[3] {}
  lemma FirearmsGuardianAfLines1At3Break() ensures '\n' !in FirearmsGuardianAfLines1[3] {}
  lemma FirearmsGuardianAfLines1At4Stop() ensures FirearmsGuardianAfLines1[4] != "" && '.' !in FirearmsGuardianAfLines1[4] {}
  lemma FirearmsGuardianAfLines1At4Break() ensures '\n' !in FirearmsGuardianAfLines1[4] {}

  /** Each line of CivilSocietyEnLines1 is not empty and holds no full stop and no newline. */
  lemma CivilSocietyEnLines1At0Stop() ensures CivilSocietyEnLines1[0] != "" && '.' !in CivilSocietyEnLines1[0] {}
  lemma CivilSocietyEnLines1At0Break() ensures '\n' !in CivilSocietyEnLines1[0] {}
  lemma CivilSocietyEnLines1At1Stop() ensures CivilSocietyEnLines1[1] != "" && '.' !in CivilSocietyEnLines1[1] {}
  lemma CivilSocietyEnLines1At1Break() ensures '\n' !in CivilSocietyEnLines1[1] {}
  lemma CivilSocietyEnLines1At2Stop() ensures CivilSocietyEnLines1[2] != "" && '.' !in CivilSocietyEnLines1[2] {}
  lemma CivilSocietyEnLines1At2Break() ensures '\n' !in CivilSocietyEnLines1[2] {}

  /** Each line of CivilSocietyEnLines2 is not empty and holds no full stop and no newline. */
  lemma CivilSocietyEnLines2At0Stop() ensures CivilSocietyEnLines2[0] != "" && '.' !in CivilSocietyEnLines2[0] {}
  lemma CivilSocietyEnLines2At0Break() ensures '\n' !in CivilSocietyEnLines2[0] {}
  lemma CivilSocietyEnLines2At1Stop() ensures CivilSocietyEnLines2[1] != "" && '.' !in CivilSocietyEnLines2[1] {}
  lemma CivilSocietyEnLines2At1Break() ensures '\n' !in CivilSocietyEnLines2[1] {}
  lemma CivilSocietyEnLines2At2Stop() ensures CivilSocietyEnLines2[2] != "" && '.' !in CivilSocietyEnLines2[2] {}
  lemma CivilSocietyEnLines2At2Break() ensures '\n' !in CivilSocietyEnLines2[2] {}

  /** Each line of CivilSocietyAfLines1 is not empty and holds no full stop and no newline. */
  lemma CivilSocietyAfLines1At0Stop() ensures CivilSocietyAfLines1[0] != "" && '.' !in CivilSocietyAfLines1[0] {}
  lemma CivilSocietyAfLines1At0Break() ensures '\n' !in CivilSocietyAfLines1[0] {}
  lemma CivilSocietyAfLines1At1Stop() ensures CivilSocietyAfLines1[1] != "" && '.' !in CivilSocietyAfLines1[1] {}
  lemma CivilSocietyAfLines1At1Break() ensures '\n' !in CivilSocietyAfLines1[1] {}
  lemma CivilSocietyAfLines1At2Stop() ensures CivilSocietyAfLines1[2] != "" && '.' !in CivilSocietyAfLines1[2] {}
  lemma CivilSocietyAfLines1At2Break() ensures '\n' !in CivilSocietyAfLines1[2] {}

  /** Each line of CivilSocietyAfLines2 is not empty and holds no full stop and no newline. */
  lemma CivilSocietyAfLines2At0Stop() ensures CivilSocietyAfLines2[0] != "" && '.' !in CivilSocietyAfLines2[0] {}
  lemma CivilSocietyAfLines2At0Break() ensures '\n' !in CivilSocietyAfLines2[0] {}
  lemma CivilSocietyAfLines2At1Stop() ensures CivilSocietyAfLines2[1] != "" && '.' !in CivilSocietyAfLines2[1] {}
  lemma CivilSocietyAfLines2At1Break() ensures '\n' !in CivilSocietyAfLines2[1] {}
  lemma CivilSocietyAfLines2At2Stop() ensures CivilSocietyAfLines2[2] != "" && '.' !in CivilSocietyAfLines2[2] {}
  lemma CivilSocietyAfLines2At2Break() ensures '\n' !in CivilSocietyAfLines2[2] {}

  // ---------------------------------------------------------------------------
  // Facts about the table

  lemma {:induction false} PrefixStarts(p: string, rest: string)
    ensures StartsWith(p + rest, p) && |p + rest| == |p| + |rest|
  {
    assert (p + rest)[..|p|] == p;
  }

  /**
   * What every template of a department has in common: a subject made of the
   * department's identifier, a dash and a title; a greeting with one client
   * placeholder; a body with one agent placeholder and no other; bank details exactly for Free SA and TLU SA; sections, whose
   * first has an empty heading exactly for Free SA; and exactly one
   * call-to-action button.
   */
  ghost predicate TemplateShape(t: EmailTemplate, d: Department) {
    && StartsWith(t.subject, DepartmentName(d) + " - ")
    && |t.subject| > |DepartmentName(d) + " - "|
    && OnePlaceholder(t.greeting, ClientToken)
    && OnePlaceholder(t.body, AgentToken)
    && (t.bankDetails.Some? <==> d == FreeSA || d == TluSA)
    && t.sections.Some? && |t.sections.value| == (if d == FreeSA || d == TluSA then 1 else 2)
    && (t.sections.value[0].heading == "" <==> d == FreeSA)
    && |t.buttons| == 1
  }

  lemma FreeSaEnShape() ensures TemplateShape(FreeSaEn, FreeSA) {
    PrefixStarts("Free SA - ", "Your Contribution Details");
    assert PlaceholderAt(FreeSaEn.greeting, ClientToken, "Hello ", ",");
    FreeSaEnText0(); FreeSaEnText1(); FreeSaEnText2(); FreeSaEnText3(); FreeSaEnText4(); FreeSaEnText5();
    ConcatExcludes(FreeSaEnText, '{');
    assert PlaceholderAt(FreeSaEn.body, AgentToken, "Thank you for chatting with ", Concat(FreeSaEnText));
  }
  lemma FreeSaAfShape() ensures TemplateShape(FreeSaAf, FreeSA) {
    PrefixStarts("Free SA - ", "Jou Bydrae-besonderhede");
    assert PlaceholderAt(FreeSaAf.greeting, ClientToken, "Hallo ", ",");
    FreeSaAfText0(); FreeSaAfText1(); FreeSaAfText2(); FreeSaAfText3(); FreeSaAfText4(); FreeSaAfText5(); FreeSaAfText6();
    ConcatExcludes(FreeSaAfText, '{');
    assert PlaceholderAt(FreeSaAf.body, AgentToken, "Dankie dat jy met ", Concat(FreeSaAfText));
  }
  lemma TluSaEnShape() ensures TemplateShape(TluSaEn, TluSA) {
    PrefixStarts("TLU SA - ", "Membership Information");
    assert PlaceholderAt(TluSaEn.greeting, ClientToken, "Good day ", ",");
    TluSaEnText0(); TluSaEnText1(); TluSaEnText2(); TluSaEnText3(); TluSaEnText4();
    ConcatExcludes(TluSaEnText, '{');
    assert PlaceholderAt(TluSaEn.body, AgentToken, "Thank you for speaking with ", Concat(TluSaEnText));
  }
  lemma TluSaAfShape() ensures TemplateShape(TluSaAf, TluSA) {
    PrefixStarts("TLU SA - ", "Lidmaatskap-inligting");
    assert PlaceholderAt(TluSaAf.greeting, ClientToken, "Goeie dag ", ",");
    TluSaAfText0(); TluSaAfText1(); TluSaAfText2(); TluSaAfText3(); TluSaAfText4();
    ConcatExcludes(TluSaAfText, '{');
    assert PlaceholderAt(TluSaAf.body, AgentToken, "Dankie dat u met ", Concat(TluSaAfText));
  }
  lemma FirearmsGuardianEnShape() ensures TemplateShape(FirearmsGuardianEn, FirearmsGuardian) {
    PrefixStarts("Firearms Guardian - ", "Your Application Details");
    assert PlaceholderAt(FirearmsGuardianEn.greeting, ClientToken, "Hello ", ",");
    FirearmsGuardianEnText0(); FirearmsGuardianEnText1(); FirearmsGuardianEnText2(); FirearmsGuardianEnText3(); FirearmsGuardianEnText4();
    ConcatExcludes(FirearmsGuardianEnText, '{');
    assert PlaceholderAt(FirearmsGuardianEn.body, AgentToken, "Thank you for speaking with ", Concat(FirearmsGuardianEnText));
  }
  lemma FirearmsGuardianAfShape() ensures TemplateShape(FirearmsGuardianAf, FirearmsGuardian) {
    PrefixStarts("Firearms Guardian - ", "Jou Aansoek-besonderhede");
    assert PlaceholderAt(FirearmsGuardianAf.greeting, ClientToken, "Hallo ", ",");
    FirearmsGuardianAfText0(); FirearmsGuardianAfText1(); FirearmsGuardianAfText2(); FirearmsGuardianAfText3(); FirearmsGuardianAfText4();
    ConcatExcludes(FirearmsGuardianAfText, '{');
    assert PlaceholderAt(FirearmsGuardianAf.body, AgentToken, "Dankie dat jy met ", Concat(FirearmsGuardianAfText));
  }
  lemma CivilSocietyEnShape() ensures TemplateShape(CivilSocietyEn, CivilSocietySA) {
    PrefixStarts("Civil Society SA - ", "How to Get Involved");
    assert PlaceholderAt(CivilSocietyEn.greeting, ClientToken, "Hello ", ",");
    CivilSocietyEnText0(); CivilSocietyEnText1(); CivilSocietyEnText2(); CivilSocietyEnText3();
    ConcatExcludes(CivilSocietyEnText, '{');
    assert PlaceholderAt(CivilSocietyEn.body, AgentToken, "Thank you for chatting with ", Concat(CivilSocietyEnText));
  }
  lemma CivilSocietyAfShape() ensures TemplateShape(CivilSocietyAf, CivilSocietySA) {
    PrefixStarts("Civil Society SA - ", "Hoe Om Betrokke te Raak");
    assert PlaceholderAt(CivilSocietyAf.greeting, ClientToken, "Hallo ", ",");
    CivilSocietyAfText0(); CivilSocietyAfText1(); CivilSocietyAfText2(); CivilSocietyAfText3(); CivilSocietyAfText4();
    ConcatExcludes(CivilSocietyAfText, '{');
    assert PlaceholderAt(CivilSocietyAf.body, AgentToken, "Dankie dat jy met ", Concat(CivilSocietyAfText));
  }

  /** Every template in the table has its department's shape. */
  lemma TableShape(d: Department, l: Language)
    ensures TemplateShape(GetTemplate(d, l), d)
  {
    match (d, l)
    case (FreeSA, En) => FreeSaEnShape();
    case (FreeSA, Af) => FreeSaAfShape();
    case (TluSA, En) => TluSaEnShape();
    case (TluSA, Af) => TluSaAfShape();
    case (FirearmsGuardian, En) => FirearmsGuardianEnShape();
    case (FirearmsGuardian, Af) => FirearmsGuardianAfShape();
    case (CivilSocietySA, En) => CivilSocietyEnShape();
    case (CivilSocietySA, Af) => CivilSocietyAfShape();
  }
}
