/**
 * The four departments (organisations) mail is sent for, the two languages,
 * and each department's static configuration.
 */
module Departments {
  import opened Wrappers
  import opened Strings

  datatype Department = FreeSA | TluSA | FirearmsGuardian | CivilSocietySA

  datatype Language = En | Af

  /** Every department, in the order the department table lists them. */
  const AllDepartments: seq<Department> := [FreeSA, TluSA, FirearmsGuardian, CivilSocietySA]

  /** The department's identifier, the string the rest of the system passes around. */
  function DepartmentName(d: Department): string {
    match d
    case FreeSA => "Free SA"
    case TluSA => "TLU SA"
    case FirearmsGuardian => "Firearms Guardian"
    case CivilSocietySA => "Civil Society SA"
  }

  function LanguageCode(l: Language): string {
    match l
    case En => "en"
    case Af => "af"
  }

  /** The department whose identifier is `s`, if any. */
  function ParseDepartment(s: string): (r: Option<Department>)
    ensures r.Some? ==> DepartmentName(r.value) == s
  {
    if s == "Free SA" then Some(FreeSA)
    else if s == "TLU SA" then Some(TluSA)
    else if s == "Firearms Guardian" then Some(FirearmsGuardian)
    else if s == "Civil Society SA" then Some(CivilSocietySA)
    else None
  }

  /** Identifiers are unique: parsing a department's identifier gives that department back. */
  lemma ParseDepartmentName(d: Department)
    ensures ParseDepartment(DepartmentName(d)) == Some(d)
  {
  }

  datatype DepartmentConfig = DepartmentConfig(
    name: Department,
    fullName: string,
    senderEmail: string,
    color: string,
    colorDark: string,
    colorClass: string,
    agents: seq<string>,
    showBankDetails: bool,
    hasAttachment: bool)

  /** The department table. */
  function Config(d: Department): (c: DepartmentConfig)
    ensures c.name == d
  {
    match d
    case FreeSA => DepartmentConfig(
      FreeSA,
      "Foundation for Rights of Expression and Equality NPC",
      "memberships@freesa.org.za",
      "#f97316", "#ea580c", "freesa",
      FreeSaAgents,
      true, false)
    case TluSA => DepartmentConfig(
      TluSA,
      "TLU Suid Afrika - Die Vesting van die Kommersiële Boer",
      "info@tlu.co.za",
      "#22c55e", "#16a34a", "tlusa",
      TluSaAgents,
      true, false)
    case FirearmsGuardian => DepartmentConfig(
      FirearmsGuardian,
      "Firearms Guardian Legal & Liability Insurance",
      "benefits@firearmsguardian.co.za",
      "#dc2626", "#b91c1c", "firearms",
      FirearmsGuardianAgents,
      false, true)
    case CivilSocietySA => DepartmentConfig(
      CivilSocietySA,
      "Civil Society South Africa",
      "contributors@civilsocietysa.co.za",
      "#2563eb", "#1d4ed8", "civilsociety",
      CivilSocietyAgents,
      true, false)
  }

  const FreeSaAgents: seq<string> :=
    ["Cindy Cloete", "Irene Rossouw", "Juan Pretorius", "Nadine Esterhuysen",
     "Pierre Farrell", "Santamari Barker", "Shireen Bester", "Vanessa Fourie",
     "Wynand Kapp"]

  const TluSaAgents: seq<string> :=
    ["Cindy Cloete", "Cobus Esterhuizen", "Geneveve Webster", "Irene Brummer",
     "Irene Rossouw", "Juan Pretorius", "Lee-Anne Brummer", "Leodette Maritz",
     "Martin Van Der Walt", "Martin Webster", "Nadine Esterhuysen", "Pierre Farrell",
     "Robert Eglington", "Sammy Farrell", "Santamari Barker", "Shireen Bester",
     "Stephanie Wheeler", "Wynand Kapp", "Zane Erasmus"]

  const FirearmsGuardianAgents: seq<string> :=
    ["Cindy Cloete", "Irene Rossouw", "Jurie Steyn", "Leodette Maritz",
     "Michael Mostert", "Nadine Esterhuysen", "Robert Eglington", "Shireen Bester",
     "Stephanie Wheeler", "Vanessa Fourie", "Wynand Boshoff"]

  const CivilSocietyAgents: seq<string> :=
    ["Cindy Cloete", "Irene Rossouw", "Juan Pretorius", "Nadine Esterhuysen",
     "Pierre Farrell", "Santamari Barker", "Shireen Bester", "Vanessa Fourie",
     "Wynand Kapp"]

  /** Agent names are shown in a list keyed by name, so each list is non-empty and repeats no name. */
  lemma AgentsNonEmptyAndDistinct(d: Department)
    ensures |Config(d).agents| > 0
    ensures Distinct(Config(d).agents)
  {
    match d
    case FreeSA => FreeSaAgentsDistinct();
    case TluSA => TluSaAgentsDistinct();
    case FirearmsGuardian => FirearmsGuardianAgentsDistinct();
    case CivilSocietySA => CivilSocietyAgentsDistinct();
  }

  lemma FreeSaAgentsDistinct() ensures Distinct(FreeSaAgents) {}
  lemma TluSaAgentsDistinct() ensures Distinct(TluSaAgents) {
    TluSaAgentsDistinctLow();
    TluSaAgentsDistinctHigh();
  }
  lemma TluSaAgentsDistinctLow()
    ensures forall i, j | 0 <= i < 9 && i < j < |TluSaAgents| :: TluSaAgents[i] != TluSaAgents[j]
  {}
  lemma TluSaAgentsDistinctHigh()
    ensures forall i, j | 9 <= i < j < |TluSaAgents| :: TluSaAgents[i] != TluSaAgents[j]
  {}
  lemma FirearmsGuardianAgentsDistinct() ensures Distinct(FirearmsGuardianAgents) {}
  lemma CivilSocietyAgentsDistinct() ensures Distinct(CivilSocietyAgents) {}

  /** Exactly one department sends a PDF attachment. */
  lemma OnlyFirearmsGuardianHasAttachment(d: Department)
    ensures Config(d).hasAttachment <==> d == FirearmsGuardian
  {
    match d
    case FreeSA =>
    case TluSA =>
    case FirearmsGuardian =>
    case CivilSocietySA =>
  }

  /** The table lists every department once. */
  lemma AllDepartmentsComplete(d: Department)
    ensures d in AllDepartments
    ensures |AllDepartments| == 4
    ensures forall i, j | 0 <= i < j < |AllDepartments| :: AllDepartments[i] != AllDepartments[j]
  {
  }
}
