/** The patch set of a risk report (generateReport in
    src/utils/generateReports.js, lines 332-805): the map from the template's
    slots to the content placed there, assembled from one flat payload.
    The payload's fields keep the source's meaning; JavaScript truthiness of
    a findings flag is modelled as a `bool`, and a field the source calls a
    method on (`.split`, `.map`, `.length`) is an `Option` because an absent
    one makes the source throw. The template's slots are an enumeration
    whose placeholder names `SlotName` gives. */
module Report {
  import opened Wrappers
  import opened DocTree
  import opened JsText
  import opened Builders
  import opened ReportSlots

  datatype Payload = Payload(
    // company profile
    name: string, location: string, address: string, website: string,
    activeStatus: string, operationType: string, legalStatus: string, nationalId: string,
    alias: string, incorporationDate: string, subsidiaries: string, corporateGroup: string,
    shareholders: Option<string>, keyExec: Option<string>,
    revenue: string, employeeCount: string,
    // overall rating and summary
    riskLevel: string, summaryOfFindings: Option<string>,
    // the eight risk-area ratings
    sanctionsRating: string, antiRating: string, govRating: string, financialRating: string,
    advRating: string, cyberRating: string, esgRating: string, regulatoryAndLegalRating: string,
    // the eight risk-area summaries, one bulleted paragraph per element
    sanctionsSummary: Option<seq<string>>, antiSummary: Option<seq<string>>,
    govSummary: Option<seq<string>>, financialSummary: Option<seq<string>>,
    advSummary: Option<seq<string>>, cyberSummary: Option<seq<string>>,
    esgSummary: Option<seq<string>>, ralSummary: Option<seq<string>>,
    // "has findings" flags
    sanctionsFindings: bool, pepFindings: bool, briberyFindings: bool, corruptionFindings: bool,
    sownFindings: bool, financialFindings: bool, bankruptcyFindings: bool, advFindings: bool,
    regFindings: bool, cybFindings: bool, esgFindings: bool,
    // findings lists (`backruptcyData` keeps the spelling of its payload key)
    sapeData: Option<seq<Kpi>>, pepData: Option<seq<Kpi>>, briberyData: Option<seq<Kpi>>,
    corruptionData: Option<seq<Kpi>>, sownData: Option<seq<Kpi>>, financialData: Option<seq<Kpi>>,
    backruptcyData: Option<seq<Kpi>>, advData: Option<seq<Kpi>>, regData: Option<seq<Kpi>>,
    legData: Option<seq<Kpi>>, cybData: Option<seq<Kpi>>, esgData: Option<seq<Kpi>>)

  /** Every field the assembly calls a method on is present. The legal
      findings list is read under the bankruptcy flag, as its slot is. */
  predicate Complete(p: Payload) {
    && p.shareholders.Some? && p.keyExec.Some? && p.summaryOfFindings.Some?
    && p.sanctionsSummary.Some? && p.antiSummary.Some? && p.govSummary.Some?
    && p.financialSummary.Some? && p.advSummary.Some? && p.cyberSummary.Some?
    && p.esgSummary.Some? && p.ralSummary.Some?
    && (p.sanctionsFindings ==> p.sapeData.Some?)
    && (p.pepFindings ==> p.pepData.Some?)
    && (p.briberyFindings ==> p.briberyData.Some?)
    && (p.corruptionFindings ==> p.corruptionData.Some?)
    && (p.sownFindings ==> p.sownData.Some?)
    && (p.financialFindings ==> p.financialData.Some?)
    && (p.bankruptcyFindings ==> p.backruptcyData.Some? && p.legData.Some?)
    && (p.advFindings ==> p.advData.Some?)
    && (p.regFindings ==> p.regData.Some?)
    && (p.cybFindings ==> p.cybData.Some?)
    && (p.esgFindings ==> p.esgData.Some?)
  }

  // ---------------------------------------------------------------------
  // Derived data

  /** `riskData`: each area with its rating, in the fixed order. */
  function RiskData(p: Payload): (r: seq<RiskEntry>)
    ensures |r| == 8 && forall k :: 0 <= k < 8 ==> r[k].area == RiskAreaOrder[k]
    ensures r[0].rating == p.sanctionsRating && r[1].rating == p.antiRating
    ensures r[2].rating == p.govRating && r[3].rating == p.financialRating
    ensures r[4].rating == p.advRating && r[5].rating == p.cyberRating
    ensures r[6].rating == p.esgRating && r[7].rating == p.regulatoryAndLegalRating
  {
    [RiskEntry(Sanctions, p.sanctionsRating),
     RiskEntry(AntiBriberyAndAntiCorruption, p.antiRating),
     RiskEntry(GovernmentOwnershipAndPoliticalAffiliations, p.govRating),
     RiskEntry(FinancialIndicators, p.financialRating),
     RiskEntry(OtherAdverseMedia, p.advRating),
     RiskEntry(CyberSecurity, p.cyberRating),
     RiskEntry(Esg, p.esgRating),
     RiskEntry(RegulatoryAndLegal, p.regulatoryAndLegalRating)]
  }

  /** `Object.entries(riskAreas)`: each area with its summary, in the
      object's insertion order. */
  function RiskAreas(p: Payload): (r: seq<(RiskArea, seq<string>)>)
    requires Complete(p)
    ensures |r| == 8 && forall k :: 0 <= k < 8 ==> r[k].0 == RiskAreaOrder[k]
    ensures r[0].1 == p.sanctionsSummary.value && r[1].1 == p.antiSummary.value
    ensures r[2].1 == p.govSummary.value && r[3].1 == p.financialSummary.value
    ensures r[4].1 == p.advSummary.value && r[5].1 == p.cyberSummary.value
    ensures r[6].1 == p.esgSummary.value && r[7].1 == p.ralSummary.value
  {
    [(Sanctions, p.sanctionsSummary.value),
     (AntiBriberyAndAntiCorruption, p.antiSummary.value),
     (GovernmentOwnershipAndPoliticalAffiliations, p.govSummary.value),
     (FinancialIndicators, p.financialSummary.value),
     (OtherAdverseMedia, p.advSummary.value),
     (CyberSecurity, p.cyberSummary.value),
     (Esg, p.esgSummary.value),
     (RegulatoryAndLegal, p.ralSummary.value)]
  }

  /** The `cyberSecurity_findings` record: the indicator rows only when the
      flag is set. */
  function CyberSection(p: Payload): (s: IndicatorSection)
    requires p.cybFindings ==> p.cybData.Some?
    ensures s.title == p.name + " (Self)" && s.rating == p.cyberRating
    ensures s.innerTitle == "Cyber Security Indicators"
    ensures s.data == if p.cybFindings then p.cybData.value else []
  {
    IndicatorSection(p.name + " (Self)", p.cyberRating, "Cyber Security Indicators",
                     if p.cybFindings then p.cybData.value else [])
  }

  /** The `esg_findings` record: the indicator rows only when the flag is
      set. */
  function EsgSection(p: Payload): (s: IndicatorSection)
    requires p.esgFindings ==> p.esgData.Some?
    ensures s.title == p.name + " (Self)" && s.rating == p.esgRating
    ensures s.innerTitle == "ESG Indicators"
    ensures s.data == if p.esgFindings then p.esgData.value else []
  {
    IndicatorSection(p.name + " (Self)", p.esgRating, "ESG Indicators",
                     if p.esgFindings then p.esgData.value else [])
  }

  // ---------------------------------------------------------------------
  // Slots

  /** The company-profile fields shown as one text run each. */
  datatype ProfileField =
    | Name | Location | Address | Website | ActiveStatus | OperationType | LegalStatus
    | NationalIdentifier | Alias | IncorporationDate | Subsidiaries | CorporateGroup
    | Revenue | Employee

  const ProfileFields: seq<ProfileField> :=
    [Name, Location, Address, Website, ActiveStatus, OperationType, LegalStatus,
     NationalIdentifier, Alias, IncorporationDate, Subsidiaries, CorporateGroup,
     Revenue, Employee]

  /** The payload field a profile slot shows. */
  function ProfileText(p: Payload, f: ProfileField): string {
    match f
    case Name => p.name
    case Location => p.location
    case Address => p.address
    case Website => p.website
    case ActiveStatus => p.activeStatus
    case OperationType => p.operationType
    case LegalStatus => p.legalStatus
    case NationalIdentifier => p.nationalId
    case Alias => p.alias
    case IncorporationDate => p.incorporationDate
    case Subsidiaries => p.subsidiaries
    case CorporateGroup => p.corporateGroup
    case Revenue => p.revenue
    case Employee => p.employeeCount
  }

  /** The position of a field in `ProfileFields`. */
  function ProfileIndex(f: ProfileField): (k: nat)
    ensures k < |ProfileFields| && ProfileFields[k] == f
  {
    match f
    case Name => 0
    case Location => 1
    case Address => 2
    case Website => 3
    case ActiveStatus => 4
    case OperationType => 5
    case LegalStatus => 6
    case NationalIdentifier => 7
    case Alias => 8
    case IncorporationDate => 9
    case Subsidiaries => 10
    case CorporateGroup => 11
    case Revenue => 12
    case Employee => 13
  }

  /** The findings categories whose slot lists one findings table per
      finding. */
  datatype FlatCategory =
    | SanctionsHits | PepHits | AntiBriberyHits | AntiCorruptionHits | GovernmentOwnershipHits
    | FinancialHits | BankruptcyHits | AdverseMediaHits | RegulatoryHits | LegalHits

  const FlatCategories: seq<FlatCategory> :=
    [SanctionsHits, PepHits, AntiBriberyHits, AntiCorruptionHits, GovernmentOwnershipHits,
     FinancialHits, BankruptcyHits, AdverseMediaHits, RegulatoryHits, LegalHits]

  /** The position of a category in `FlatCategories`. */
  function FlatIndex(c: FlatCategory): (k: nat)
    ensures k < |FlatCategories| && FlatCategories[k] == c
  {
    match c
    case SanctionsHits => 0
    case PepHits => 1
    case AntiBriberyHits => 2
    case AntiCorruptionHits => 3
    case GovernmentOwnershipHits => 4
    case FinancialHits => 5
    case BankruptcyHits => 6
    case AdverseMediaHits => 7
    case RegulatoryHits => 8
    case LegalHits => 9
  }

  /** The flag that switches a flat category's slot: its own "has findings"
      flag, except that the legal slot is switched by the bankruptcy flag. */
  function FlagOf(p: Payload, c: FlatCategory): bool {
    match c
    case SanctionsHits => p.sanctionsFindings
    case PepHits => p.pepFindings
    case AntiBriberyHits => p.briberyFindings
    case AntiCorruptionHits => p.corruptionFindings
    case GovernmentOwnershipHits => p.sownFindings
    case FinancialHits => p.financialFindings
    case BankruptcyHits => p.bankruptcyFindings
    case AdverseMediaHits => p.advFindings
    case RegulatoryHits => p.regFindings
    case LegalHits => p.bankruptcyFindings
  }

  /** The findings list a flat category's slot reads. */
  function DataOf(p: Payload, c: FlatCategory): Option<seq<Kpi>> {
    match c
    case SanctionsHits => p.sapeData
    case PepHits => p.pepData
    case AntiBriberyHits => p.briberyData
    case AntiCorruptionHits => p.corruptionData
    case GovernmentOwnershipHits => p.sownData
    case FinancialHits => p.financialData
    case BankruptcyHits => p.backruptcyData
    case AdverseMediaHits => p.advData
    case RegulatoryHits => p.regData
    case LegalHits => p.legData
  }

  /** The category name on a flat category's placeholder. */
  function LabelOf(c: FlatCategory): string {
    match c
    case SanctionsHits => "SANCTIONS"
    case PepHits => "PeP"
    case AntiBriberyHits => "ANTI BRIBERY"
    case AntiCorruptionHits => "ANTI CORRUPTION"
    case GovernmentOwnershipHits => "GOVERNMENT OWNERSHIP AND POLITICAL AFFILIATIONS"
    case FinancialHits => "FINANCIALS"
    case BankruptcyHits => "BANKRUPTCY"
    case AdverseMediaHits => "OTHER ADVERSE MEDIA"
    case RegulatoryHits => "REGULATORY"
    case LegalHits => "LEGAL"
  }

  /** A complete payload has a findings list wherever a flag is set. */
  lemma CompleteHasData(p: Payload, c: FlatCategory)
    requires Complete(p)
    ensures FlagOf(p, c) ==> DataOf(p, c).Some?
  {
  }

  /** The findings categories shown as a nested indicator table. */
  datatype NestedCategory = CyberIndicators | EsgIndicators

  /** A nested category's record and the category name on its placeholder. */
  function SectionOf(p: Payload, c: NestedCategory): IndicatorSection
    requires Complete(p)
  {
    match c
    case CyberIndicators => CyberSection(p)
    case EsgIndicators => EsgSection(p)
  }

  function NestedLabel(c: NestedCategory): string {
    match c
    case CyberIndicators => "CYBER SECURITY"
    case EsgIndicators => "ESG"
  }

  /** The template's slots; `RiskAreaSummary(a)` is the `riskAreas_<key>`
      slot of area `a`, and `Rating(a)` the lettered rating slot of the area
      at the letter's position in `riskData`. */
  datatype Slot =
    | Title | CreatedDate | Company(field: ProfileField) | Shareholders | KeyExecutives
    | OverallRating | OverallSummary | RiskAreasTable | RiskAreaSummary(area: RiskArea)
    | Rating(ratingArea: RiskArea) | PageBreak
    | FlatFindings(category: FlatCategory) | NestedFindings(nested: NestedCategory)

  /** The placeholder name of a slot in the template. */
  function SlotName(s: Slot): string {
    match s
    case Title => "title"
    case CreatedDate => "created_date"
    case Company(f) => (
      match f
      case Name => "company_name"
      case Location => "company_location"
      case Address => "company_address"
      case Website => "company_website"
      case ActiveStatus => "company_active_status"
      case OperationType => "company_operation_type"
      case LegalStatus => "company_legal_status"
      case NationalIdentifier => "company_national_identifier"
      case Alias => "company_alias"
      case IncorporationDate => "company_incorporation_date"
      case Subsidiaries => "company_subsidiaries"
      case CorporateGroup => "company_corporate_group"
      case Revenue => "company_revenue"
      case Employee => "company_employee")
    case Shareholders => "shareholders"
    case KeyExecutives => "key_executives"
    case OverallRating => "overall_rating"
    case OverallSummary => "overall_summary"
    case RiskAreasTable => "risk_areas"
    case RiskAreaSummary(a) => "riskAreas_" + AreaKey(a)
    case Rating(a) => ["abcdefgh"[AreaIndex(a)]] + "_rating"
    case PageBreak => "page_break"
    case FlatFindings(c) => (
      match c
      case SanctionsHits => "sanctions_findings"
      case PepHits => "pep_findings"
      case AntiBriberyHits => "antiBribery_findings"
      case AntiCorruptionHits => "antiCorruption_findings"
      case GovernmentOwnershipHits => "government_ownership_and_political_affiliations_findings"
      case FinancialHits => "financial_indicators_findings"
      case BankruptcyHits => "bankruptcy_findings"
      case AdverseMediaHits => "other_adverse_media_findings"
      case RegulatoryHits => "regularity_findings"
      case LegalHits => "legal_findings")
    case NestedFindings(c) =>
      match c
      case CyberIndicators => "cyberSecurity_findings"
      case EsgIndicators => "esg_findings"
  }

  /** The position of an area in `RiskAreaOrder`. */
  function AreaIndex(a: RiskArea): (k: nat)
    ensures k < 8 && RiskAreaOrder[k] == a
  {
    match a
    case Sanctions => 0
    case AntiBriberyAndAntiCorruption => 1
    case GovernmentOwnershipAndPoliticalAffiliations => 2
    case FinancialIndicators => 3
    case OtherAdverseMedia => 4
    case CyberSecurity => 5
    case Esg => 6
    case RegulatoryAndLegal => 7
  }

  /** The k-th lettered rating slot, `a_rating` to `h_rating`, belongs to
      the k-th area of `riskData`. */
  lemma RatingSlotLetter(k: nat)
    requires k < 8
    ensures AreaIndex(RiskAreaOrder[k]) == k
    ensures SlotName(Rating(RiskAreaOrder[k])) == ["abcdefgh"[k]] + "_rating"
  {
  }

  // ---------------------------------------------------------------------
  // Assembly

  /** The areas of a list of `riskAreas` entries, in order. */
  function AreasOf(entries: seq<(RiskArea, seq<string>)>): (r: seq<RiskArea>)
    ensures |r| == |entries| && forall k :: 0 <= k < |r| ==> r[k] == entries[k].0
  {
    seq(|entries|, k requires 0 <= k < |entries| => entries[k].0)
  }

  /** `...Object.entries(riskAreas).reduce(...)`: a `riskAreas_<key>` slot
      per entry, holding the entry's summary paragraphs, folded left to
      right. */
  function SpreadRiskAreas(entries: seq<(RiskArea, seq<string>)>): map<Slot, Patch> {
    if entries == [] then map[]
    else
      var last := entries[|entries| - 1];
      SpreadRiskAreas(entries[..|entries| - 1])[RiskAreaSummary(last.0) := RiskAreaSlot(last.1)]
  }

  /** The spread defines the slot of each entry's area and no other slot. */
  lemma {:induction false} SpreadKeys(entries: seq<(RiskArea, seq<string>)>)
    ensures forall a :: a in AreasOf(entries) ==> RiskAreaSummary(a) in SpreadRiskAreas(entries)
    ensures forall s :: s in SpreadRiskAreas(entries) ==> s.RiskAreaSummary? && s.area in AreasOf(entries)
    decreases |entries|
  {
    if entries != [] {
      var n := |entries| - 1;
      var init := entries[..n];
      SpreadKeys(init);
      assert AreasOf(entries) == AreasOf(init) + [entries[n].0];
    }
  }

  /** An entry's slot holds that entry's summary when no later entry has the
      same area: a later entry overrides an earlier one. */
  lemma {:induction false} SpreadValue(entries: seq<(RiskArea, seq<string>)>, i: int)
    requires 0 <= i < |entries|
    requires entries[i].0 !in AreasOf(entries[i + 1..])
    ensures RiskAreaSummary(entries[i].0) in SpreadRiskAreas(entries)
    ensures SpreadRiskAreas(entries)[RiskAreaSummary(entries[i].0)] == RiskAreaSlot(entries[i].1)
    decreases |entries|
  {
    var n := |entries| - 1;
    if i < n {
      var init := entries[..n];
      assert init[i] == entries[i];
      assert entries[n] == entries[i + 1..][n - i - 1];
      assert init[i + 1..] == entries[i + 1..][..n - i - 1];
      SpreadValue(init, i);
    }
  }

  /** Every area occurs in `RiskAreaOrder`, and the spread of entries in that
      order therefore defines every risk-area slot. */
  lemma SpreadInOrderKeys(entries: seq<(RiskArea, seq<string>)>)
    requires AreasOf(entries) == RiskAreaOrder
    ensures forall a: RiskArea :: RiskAreaSummary(a) in SpreadRiskAreas(entries)
    ensures forall s :: s in SpreadRiskAreas(entries) ==> s.RiskAreaSummary?
  {
    SpreadKeys(entries);
    forall a: RiskArea ensures RiskAreaSummary(a) in SpreadRiskAreas(entries) {
      assert RiskAreaOrder[AreaIndex(a)] == a;
    }
  }

  /** In the spread of entries in `RiskAreaOrder`, the slot of the k-th area
      holds the k-th entry's summary: no area occurs twice. */
  lemma SpreadInOrderValues(entries: seq<(RiskArea, seq<string>)>)
    requires AreasOf(entries) == RiskAreaOrder
    ensures forall k :: 0 <= k < 8 ==>
              && RiskAreaSummary(RiskAreaOrder[k]) in SpreadRiskAreas(entries)
              && SpreadRiskAreas(entries)[RiskAreaSummary(RiskAreaOrder[k])] == RiskAreaSlot(entries[k].1)
  {
    forall k | 0 <= k < 8
      ensures && RiskAreaSummary(RiskAreaOrder[k]) in SpreadRiskAreas(entries)
              && SpreadRiskAreas(entries)[RiskAreaSummary(RiskAreaOrder[k])] == RiskAreaSlot(entries[k].1)
    {
      assert AreasOf(entries[k + 1..]) == RiskAreaOrder[k + 1..];
      SpreadValue(entries, k);
    }
  }

  /** The risk-area entries of the `patches` object, in order: the explicit
      `riskAreas_antiBriberyAndAntiCorruption` entry, then the spread, whose
      entries override it. */
  function RiskAreaPatches(p: Payload): map<Slot, Patch>
    requires Complete(p)
  {
    map[RiskAreaSummary(AntiBriberyAndAntiCorruption) := RiskAreaSlot(p.antiSummary.value)]
      + SpreadRiskAreas(RiskAreas(p))
  }

  /** The risk-area entries define exactly the eight risk-area slots, each
      holding its own area's summary from `riskAreas`: the spread's entry
      wins over the explicit one. */
  lemma RiskAreaPatchesFollowRiskAreas(p: Payload)
    requires Complete(p)
    ensures forall a: RiskArea :: RiskAreaSummary(a) in RiskAreaPatches(p)
    ensures forall s :: s in RiskAreaPatches(p) ==> s.RiskAreaSummary?
    ensures forall k :: 0 <= k < 8 ==>
              RiskAreaPatches(p)[RiskAreaSummary(RiskAreaOrder[k])] == RiskAreaSlot(RiskAreas(p)[k].1)
  {
    var entries := RiskAreas(p);
    assert AreasOf(entries) == RiskAreaOrder;
    SpreadInOrderKeys(entries);
    SpreadInOrderValues(entries);
  }

  /** The content the `patches` object puts in slot `s`. Only the risk-area
      slots are written twice in the object literal; for them the later
      entry, the spread's, is taken. */
  function PatchOf(p: Payload, h: Helpers, d: CreationDate, s: Slot): Patch
    requires Complete(p)
  {
    match s
    case Title => TitleSlot(p.name)
    case CreatedDate => CreatedDateSlot(d, h.ordinalSuffix)
    case Company(f) => TextSlot(ProfileText(p, f))
    case Shareholders => LinesSlot(p.shareholders.value)
    case KeyExecutives => LinesSlot(p.keyExec.value)
    case OverallRating => OverallRatingSlot(p.riskLevel, h.riskColor)
    case OverallSummary => OverallSummarySlot(p.summaryOfFindings.value)
    case RiskAreasTable => RiskAreasTableSlot(RiskData(p), h.riskColor)
    case RiskAreaSummary(_) => RiskAreaPatchesFollowRiskAreas(p); RiskAreaPatches(p)[s]
    case Rating(a) => HighlightRating(RiskData(p)[AreaIndex(a)].rating, h.riskColor)
    case PageBreak => PageBreakSlot
    case FlatFindings(c) => CompleteHasData(p, c); FlatFindingsSlot(FlagOf(p, c), DataOf(p, c), LabelOf(c))
    case NestedFindings(c) => NestedFindingsSlot(SectionOf(p, c), NestedLabel(c))
  }

  /** The keys the `patches` object writes, one per slot value. */
  const AllSlots: set<Slot> :=
    {Title, CreatedDate, Shareholders, KeyExecutives, OverallRating, OverallSummary, RiskAreasTable,
     PageBreak}
    + (set f | f in ProfileFields :: Company(f))
    + (set a | a in RiskAreaOrder :: RiskAreaSummary(a))
    + (set a | a in RiskAreaOrder :: Rating(a))
    + (set c | c in FlatCategories :: FlatFindings(c))
    + {NestedFindings(CyberIndicators), NestedFindings(EsgIndicators)}

  /** `AllSlots` lists every slot value, so the patch set has a key for each. */
  lemma AllSlotsComplete(s: Slot)
    ensures s in AllSlots
  {
    match s
    case Company(f) => assert ProfileFields[ProfileIndex(f)] == f;
    case RiskAreaSummary(a) => assert RiskAreaOrder[AreaIndex(a)] == a;
    case Rating(a) => assert RiskAreaOrder[AreaIndex(a)] == a;
    case FlatFindings(c) => assert FlatCategories[FlatIndex(c)] == c;
    case NestedFindings(c) => assert c == CyberIndicators || c == EsgIndicators;
    case Title => case CreatedDate => case Shareholders => case KeyExecutives =>
    case OverallRating => case OverallSummary => case RiskAreasTable => case PageBreak =>
  }

  /** The `patches` object: an entry for every slot, with its content. */
  function Patches(p: Payload, h: Helpers, d: CreationDate): map<Slot, Patch>
    requires Complete(p)
  {
    map s | s in AllSlots :: PatchOf(p, h, d, s)
  }

  datatype GenerationError = GenerationError

  /** The assembly step of generateReport: the patch set, with an entry for
      every slot, or the generation error when one of the optional list and
      text fields that `Complete` requires is absent. */
  function GenerateReport(p: Payload, h: Helpers, d: CreationDate): (r: Result<map<Slot, Patch>, GenerationError>)
    ensures r.Success? <==> Complete(p)
    ensures r.Success? ==> r.value.Keys == AllSlots
  {
    if Complete(p) then Success(Patches(p, h, d)) else Failure(GenerationError)
  }

  // ---------------------------------------------------------------------
  // Properties of the patch set

  /** Every slot is in the patch set, with its content. */
  lemma PatchAt(p: Payload, h: Helpers, d: CreationDate, s: Slot)
    requires Complete(p)
    ensures GenerateReport(p, h, d).Success?
    ensures s in GenerateReport(p, h, d).value && GenerateReport(p, h, d).value[s] == PatchOf(p, h, d, s)
  {
    AllSlotsComplete(s);
  }

  /** A slot that reads as exactly `text`, inside the anchor's paragraph. */
  predicate ShowsText(pt: Patch, text: string) {
    pt.kind == ParagraphPatch && TextsOf(pt.children) == [text]
  }

  /** The title reads as the company name, with the picture behind it, and
      the date as day, suffix, month and year, the day in decimal digits. */
  lemma HeadingSlotsShowNameAndDate(p: Payload, h: Helpers, d: CreationDate)
    requires Complete(p)
    ensures ShowsText(PatchOf(p, h, d, Title), p.name)
    ensures PatchOf(p, h, d, Title).children[1].Image? && PatchOf(p, h, d, Title).children[1].behindDocument
    ensures TextsOf(PatchOf(p, h, d, CreatedDate).children)
              == [Decimal(d.day), h.ordinalSuffix(d.day), " " + d.month + " " + Decimal(d.year)]
    ensures DigitsValue(PatchOf(p, h, d, CreatedDate).children[0].text) == d.day
  {
    TitleShows(p.name);
    CreatedDateShows(d, h.ordinalSuffix);
  }

  /** Each profile slot reads as its payload field. */
  lemma ProfileSlotShowsField(p: Payload, h: Helpers, d: CreationDate, f: ProfileField)
    requires Complete(p)
    ensures ShowsText(PatchOf(p, h, d, Company(f)), ProfileText(p, f))
  {
    TextSlotShows(ProfileText(p, f));
  }

  /** The shareholders and key-executives slots show one paragraph per line
      of their field, empty lines included, so joining what they show with
      line feeds gives the field back. */
  lemma LineSlotsRoundTrip(p: Payload, h: Helpers, d: CreationDate)
    requires Complete(p)
    ensures TextsOf(PatchOf(p, h, d, Shareholders).children) == SplitLines(p.shareholders.value)
    ensures JoinLines(TextsOf(PatchOf(p, h, d, Shareholders).children)) == p.shareholders.value
    ensures TextsOf(PatchOf(p, h, d, KeyExecutives).children) == SplitLines(p.keyExec.value)
    ensures JoinLines(TextsOf(PatchOf(p, h, d, KeyExecutives).children)) == p.keyExec.value
  {
    LinesSlotTexts(p.shareholders.value);
    LinesSlotTexts(p.keyExec.value);
  }

  /** The overall rating shows the risk level on its colour, and the overall
      summary shows the summary with every run of line feeds read as one. */
  lemma OverviewSlotsShowOverview(p: Payload, h: Helpers, d: CreationDate)
    requires Complete(p)
    ensures Texts(PatchOf(p, h, d, OverallRating).children[0]) == ["OVERALL RISK RATING", p.riskLevel]
    ensures PatchOf(p, h, d, OverallRating).children[0].rows[0].cells[1].fill
              == Some(h.riskColor(p.riskLevel).background)
    ensures JoinLines(TextsOf(PatchOf(p, h, d, OverallSummary).children))
              == CollapseNewlines(p.summaryOfFindings.value)
  {
    OverallRatingShows(p.riskLevel, h.riskColor);
    OverallSummaryTexts(p.summaryOfFindings.value);
  }

  /** The risk-areas table lists the eight areas in order after its header,
      each with its rating. */
  lemma RiskAreasTableFollowsRiskData(p: Payload, h: Helpers, d: CreationDate)
    requires Complete(p)
    ensures var t := PatchOf(p, h, d, RiskAreasTable).children[0];
            && |t.rows| == 9 && t.rows[0] == RiskAreasHeaderRow()
            && forall k :: 0 <= k < 8 ==>
                 Texts(t.rows[k + 1]) == [AreaName(RiskAreaOrder[k]), RiskData(p)[k].rating]
  {
    var entries := RiskData(p);
    assert PatchOf(p, h, d, RiskAreasTable) == RiskAreasTableSlot(entries, h.riskColor);
    RiskAreasTableShows(entries, h.riskColor);
  }

  /** Each risk-area slot holds one summary paragraph per element of that
      area's summary, the anti-bribery slot included: its explicit entry is
      overridden by the spread's. */
  lemma RiskAreaSlotsHoldSummaries(p: Payload, h: Helpers, d: CreationDate)
    requires Complete(p)
    ensures forall k :: 0 <= k < 8 ==>
              PatchOf(p, h, d, RiskAreaSummary(RiskAreaOrder[k])) == RiskAreaSlot(RiskAreas(p)[k].1)
  {
    RiskAreaPatchesFollowRiskAreas(p);
  }

  /** The summaries in `riskAreas` are the payload's, in order. */
  lemma RiskAreaSummariesArePayloads(p: Payload, h: Helpers, d: CreationDate)
    requires Complete(p)
    ensures PatchOf(p, h, d, RiskAreaSummary(Sanctions)) == RiskAreaSlot(p.sanctionsSummary.value)
    ensures PatchOf(p, h, d, RiskAreaSummary(AntiBriberyAndAntiCorruption)) == RiskAreaSlot(p.antiSummary.value)
    ensures PatchOf(p, h, d, RiskAreaSummary(GovernmentOwnershipAndPoliticalAffiliations))
              == RiskAreaSlot(p.govSummary.value)
    ensures PatchOf(p, h, d, RiskAreaSummary(FinancialIndicators)) == RiskAreaSlot(p.financialSummary.value)
    ensures PatchOf(p, h, d, RiskAreaSummary(OtherAdverseMedia)) == RiskAreaSlot(p.advSummary.value)
    ensures PatchOf(p, h, d, RiskAreaSummary(CyberSecurity)) == RiskAreaSlot(p.cyberSummary.value)
    ensures PatchOf(p, h, d, RiskAreaSummary(Esg)) == RiskAreaSlot(p.esgSummary.value)
    ensures PatchOf(p, h, d, RiskAreaSummary(RegulatoryAndLegal)) == RiskAreaSlot(p.ralSummary.value)
  {
    RiskAreaSlotsHoldSummaries(p, h, d);
    assert RiskAreaOrder[1] == AntiBriberyAndAntiCorruption;
  }

  /** A slot showing `rating` highlighted: shaded with its background colour
      and reading as the rating between two line breaks. */
  predicate HighlightsRating(pt: Patch, rating: string, riskColor: string -> RiskColor) {
    && |pt.children| == 1 && pt.children[0].Para?
    && pt.children[0].shading == Some(riskColor(rating).background)
    && TextsOf(pt.children) == ["", rating, ""]
  }

  /** The lettered rating slot of an area highlights that area's rating in
      `riskData`. */
  lemma RatingSlotHighlightsRating(p: Payload, h: Helpers, d: CreationDate, a: RiskArea)
    requires Complete(p)
    ensures RiskData(p)[AreaIndex(a)].area == a
    ensures HighlightsRating(PatchOf(p, h, d, Rating(a)), RiskData(p)[AreaIndex(a)].rating, h.riskColor)
  {
    var rating := RiskData(p)[AreaIndex(a)].rating;
    assert PatchOf(p, h, d, Rating(a)) == HighlightRating(rating, h.riskColor);
    HighlightRatingShape(rating, h.riskColor);
  }

  /** A flat findings slot: the category's placeholder exactly when the flag
      is off, reading as the category's message; otherwise one findings table
      and one empty paragraph per finding, in order. */
  predicate ListsFindings(pt: Patch, flag: bool, data: Option<seq<Kpi>>, category: string)
    requires flag ==> data.Some?
  {
    && pt.kind == DocumentPatch
    && (IsNoHitsFallback(pt.children) <==> !flag)
    && (!flag ==> TextsOf(pt.children) == [NoHitsMessage(category)])
    && (flag ==> pt.children == FindingsTables(data.value))
  }

  /** A flat findings slot lists its findings or shows its placeholder. */
  lemma FlatSlotLists(flag: bool, data: Option<seq<Kpi>>, category: string)
    requires flag ==> data.Some?
    ensures ListsFindings(FlatFindingsSlot(flag, data, category), flag, data, category)
  {
    FlatFindingsSlotShape(flag, data, category);
    NoHitsTableTexts(category);
  }

  /** Each flat findings slot follows its category's flag and list; the
      legal slot follows the bankruptcy flag. */
  lemma FlatFindingsSlotFollowsFlag(p: Payload, h: Helpers, d: CreationDate, c: FlatCategory)
    requires Complete(p)
    ensures FlagOf(p, c) ==> DataOf(p, c).Some?
    ensures ListsFindings(PatchOf(p, h, d, FlatFindings(c)), FlagOf(p, c), DataOf(p, c), LabelOf(c))
  {
    CompleteHasData(p, c);
    FlatSlotLists(FlagOf(p, c), DataOf(p, c), LabelOf(c));
    assert PatchOf(p, h, d, FlatFindings(c)) == FlatFindingsSlot(FlagOf(p, c), DataOf(p, c), LabelOf(c));
  }

  /** A nested findings slot: the category's placeholder exactly when the
      section has no indicator rows, reading as the category's message;
      otherwise the nested table, reading as its header, "Findings", the
      inner header and each indicator's definition, rating and details. */
  predicate ListsIndicators(pt: Patch, s: IndicatorSection, category: string) {
    && pt.kind == DocumentPatch
    && (IsNoHitsFallback(pt.children) <==> s.data == [])
    && (s.data == [] ==> TextsOf(pt.children) == [NoHitsMessage(category)])
    && (s.data != [] ==>
          TextsOf(pt.children) ==
            ["Name & Relation", s.title, "Rating", s.rating, "Findings", s.innerTitle, "Rating", "Notes"]
            + IndicatorTexts(s.data))
  }

  /** A nested findings slot lists its indicators or shows its placeholder. */
  lemma NestedSlotLists(s: IndicatorSection, category: string)
    ensures ListsIndicators(NestedFindingsSlot(s, category), s, category)
  {
    NestedFindingsSlotShape(s, category);
    if s.data == [] {
      NoHitsTableTexts(category);
    } else {
      FindingsInnerTableTexts(s);
    }
  }

  /** The cyber-security and ESG slots show the company's indicators; the
      section holds them only when the flag is set (`CyberSection`,
      `EsgSection`), so the placeholder appears exactly when the flag is off
      or the list is empty. */
  lemma NestedFindingsSlotFollowsFlag(p: Payload, h: Helpers, d: CreationDate, c: NestedCategory)
    requires Complete(p)
    ensures ListsIndicators(PatchOf(p, h, d, NestedFindings(c)), SectionOf(p, c), NestedLabel(c))
  {
    var s := SectionOf(p, c);
    NestedSlotLists(s, NestedLabel(c));
    assert PatchOf(p, h, d, NestedFindings(c)) == NestedFindingsSlot(s, NestedLabel(c));
  }
}
