/** The content of the report template's slots (the builders used by
    generateReport in src/utils/generateReports.js, lines 334-804): the
    title, date, profile texts, line lists, overall rating and summary, the
    risk-areas table and the page break. */
module ReportSlots {
  import opened Wrappers
  import opened DocTree
  import opened JsText
  import opened Builders

  /** getRiskColor and getOrdinalSuffix, imported from ./helpers.js; their
      tables are not part of this model, so they are taken as given. */
  datatype Helpers = Helpers(riskColor: string -> RiskColor, ordinalSuffix: int -> string)

  /** The date read once from the clock: day of month, English month name,
      year. */
  datatype CreationDate = CreationDate(day: nat, month: string, year: nat)

  /** The eight risk areas of the report. */
  datatype RiskArea =
    | Sanctions | AntiBriberyAndAntiCorruption | GovernmentOwnershipAndPoliticalAffiliations
    | FinancialIndicators | OtherAdverseMedia | CyberSecurity | Esg | RegulatoryAndLegal

  /** The order of `riskData` and of `riskAreas`. */
  const RiskAreaOrder: seq<RiskArea> :=
    [Sanctions, AntiBriberyAndAntiCorruption, GovernmentOwnershipAndPoliticalAffiliations,
     FinancialIndicators, OtherAdverseMedia, CyberSecurity, Esg, RegulatoryAndLegal]

  /** The area's name in the risk-areas table (`riskData[].area`). */
  function AreaName(a: RiskArea): string {
    match a
    case Sanctions => "Sanctions"
    case AntiBriberyAndAntiCorruption => "Anti-Bribery and Anti-Corruption"
    case GovernmentOwnershipAndPoliticalAffiliations => "Government Ownership and Political Affiliations"
    case FinancialIndicators => "Financial Indicators"
    case OtherAdverseMedia => "Other Adverse Media"
    case CyberSecurity => "Cyber Security"
    case Esg => "ESG"
    case RegulatoryAndLegal => "Regulatory & Legal"
  }

  /** The area's key in the `riskAreas` object. */
  function AreaKey(a: RiskArea): string {
    match a
    case Sanctions => "sanctions"
    case AntiBriberyAndAntiCorruption => "antiBriberyAndAntiCorruption"
    case GovernmentOwnershipAndPoliticalAffiliations => "governmentOwnershipAndPoliticalAffiliations"
    case FinancialIndicators => "financialIndicators"
    case OtherAdverseMedia => "otherAdverseMedia"
    case CyberSecurity => "cyberSecurity"
    case Esg => "esg"
    case RegulatoryAndLegal => "regulatoryAndLegal"
  }

  /** One `riskData` entry: an area and its rating. */
  datatype RiskEntry = RiskEntry(area: RiskArea, rating: string)

  // ---------------------------------------------------------------------
  // Slot contents

  /** The title: the company name, then the background picture floated
      behind the text. */
  function TitleSlot(name: string): Patch {
    Patch(ParagraphPatch, [PlainRun(name), Image("src/images/titleBackground.png", 500, 400, true)])
  }

  /** The title reads as the company name alone; the picture, 500 by 400,
      lies behind the text. */
  lemma TitleShows(name: string)
    ensures var p := TitleSlot(name);
            && p.kind == ParagraphPatch && TextsOf(p.children) == [name]
            && p.children[1].Image? && p.children[1].behindDocument
            && p.children[1].width == 500 && p.children[1].height == 400
  {
    var p := TitleSlot(name);
    TextsOfSingle(p.children[1]);
    TextsOfCons(p.children[0], [p.children[1]]);
    assert [p.children[0]] + [p.children[1]] == p.children;
  }

  /** The creation date: the day in bold, its ordinal suffix as superscript,
      then " <month> <year>". */
  function CreatedDateSlot(d: CreationDate, ordinalSuffix: int -> string): Patch {
    Patch(ParagraphPatch,
          [Run(Decimal(d.day), true, None, None, 0, false),
           Run(ordinalSuffix(d.day), false, None, None, 0, true),
           PlainRun(" " + d.month + " " + Decimal(d.year))])
  }

  /** The date reads as the day in decimal digits (bold), its suffix
      (superscript), then the month and the year in decimal digits. */
  lemma CreatedDateShows(d: CreationDate, ordinalSuffix: int -> string)
    ensures var p := CreatedDateSlot(d, ordinalSuffix);
            && p.kind == ParagraphPatch && |p.children| == 3
            && p.children[0].Run? && p.children[0].bold && DigitsValue(p.children[0].text) == d.day
            && p.children[1].Run? && p.children[1].superScript && p.children[1].text == ordinalSuffix(d.day)
            && p.children[2].Run? && p.children[2].text == " " + d.month + " " + Decimal(d.year)
            && TextsOf(p.children) == [Decimal(d.day), ordinalSuffix(d.day), " " + d.month + " " + Decimal(d.year)]
  {
    var p := CreatedDateSlot(d, ordinalSuffix);
    TextsOfThree(p.children[0], p.children[1], p.children[2]);
  }

  /** `createTextRun({ text })`: one plain run. */
  function TextSlot(text: string): Patch {
    Patch(ParagraphPatch, [PlainRun(text)])
  }

  lemma TextSlotShows(text: string)
    ensures TextSlot(text).kind == ParagraphPatch && TextsOf(TextSlot(text).children) == [text]
  {
    TextsOfSingle(PlainRun(text));
  }

  /** `s.split('\n').map((line) => new Paragraph(line))`: one paragraph per
      line, empty lines included. */
  function LinesSlot(s: string): Patch {
    var lines := SplitLines(s);
    Patch(DocumentPatch, seq(|lines|, i requires 0 <= i < |lines| => TextPara(lines[i])))
  }

  /** A lines slot shows every line of the text, empty ones included, so
      joining what it shows with line feeds gives the text back. */
  lemma LinesSlotTexts(s: string)
    ensures LinesSlot(s).kind == DocumentPatch
    ensures TextsOf(LinesSlot(s).children) == SplitLines(s)
    ensures JoinLines(TextsOf(LinesSlot(s).children)) == s
  {
    ParagraphsTexts(LinesSlot(s).children, SplitLines(s));
    JoinSplitLines(s);
  }

  /** A list of one-run paragraphs shows the runs' texts, in order. */
  lemma {:induction false} ParagraphsTexts(paras: seq<Node>, lines: seq<string>)
    requires |paras| == |lines|
    requires forall i :: 0 <= i < |paras| ==>
               paras[i].Para? && |paras[i].children| == 1 && paras[i].children[0].Run?
               && paras[i].children[0].text == lines[i]
    ensures TextsOf(paras) == lines
    decreases |paras|
  {
    if paras != [] {
      ParagraphsTexts(paras[1..], lines[1..]);
      assert paras[0].children == [paras[0].children[0]];
      TextsOfSingle(paras[0].children[0]);
      TextsOfCons(paras[0], paras[1..]);
      assert [paras[0]] + paras[1..] == paras;
      assert [lines[0]] + lines[1..] == lines;
    }
  }

  /** The light-gray single border every side of the summary tables has. */
  const Bordered := true

  /** The overall rating: a centred 70% table of one row, "OVERALL RISK
      RATING" beside the risk level, both bold size 24; the level's cell is
      shaded with its background colour and its text drawn in its
      foreground colour. */
  function OverallRatingSlot(riskLevel: string, riskColor: string -> RiskColor): Patch {
    var colors := riskColor(riskLevel);
    var labelCell := Cell([Para(Some(Center), [Run("OVERALL RISK RATING", true, None, Some(24), 0, false)],
                                NoSpacing, false, None, false)],
                          None, 1, true, Bordered, None);
    var level := Cell([Para(Some(Center), [Run(riskLevel, true, Some(colors.color), Some(24), 0, false)],
                            NoSpacing, false, None, false)],
                      Some(colors.background), 1, true, Bordered, None);
    Patch(DocumentPatch, [Table([Row([labelCell, level], RowHeight)], 70, Some(Center), [8000, 4000], false)])
  }

  /** The overall rating is one table of one row reading "OVERALL RISK
      RATING" then the risk level; the level's cell is shaded with the
      level's background colour and its text drawn in its foreground
      colour. */
  lemma OverallRatingShows(riskLevel: string, riskColor: string -> RiskColor)
    ensures var p := OverallRatingSlot(riskLevel, riskColor);
            && p.kind == DocumentPatch && |p.children| == 1
            && var t := p.children[0];
               && t.Table? && t.widthPct == 70 && t.alignment == Some(Center) && t.columnWidths == [8000, 4000]
               && |t.rows| == 1 && t.rows[0].Row? && |t.rows[0].cells| == 2
               && Texts(t) == ["OVERALL RISK RATING", riskLevel]
               && var level := t.rows[0].cells[1];
                  && level.Cell? && level.fill == Some(riskColor(riskLevel).background)
                  && level.children[0].children[0].color == Some(riskColor(riskLevel).color)
                  && level.children[0].children[0].bold
  {
    var t := OverallRatingSlot(riskLevel, riskColor).children[0];
    var row := t.rows[0];
    TextsOfSingle(row.cells[0].children[0].children[0]);
    TextsOfSingle(row.cells[0].children[0]);
    TextsOfSingle(row.cells[1].children[0].children[0]);
    TextsOfSingle(row.cells[1].children[0]);
    TextsOfSingle(row.cells[1]);
    TextsOfCons(row.cells[0], [row.cells[1]]);
    TextsOfSingle(row);
  }

  /** The overall summary: `split(/\n+/)` without trimming, one paragraph per
      piece, each piece after a line break. */
  function OverallSummarySlot(s: string): Patch {
    var pieces := SplitRuns(s);
    Patch(DocumentPatch,
          seq(|pieces|, i requires 0 <= i < |pieces| =>
                Para(None, [Run(pieces[i], false, None, None, 1, false)], NoSpacing, false, None, false)))
  }

  /** The overall summary shows the pieces of the text, in order. */
  lemma OverallSummaryTexts(s: string)
    ensures var p := OverallSummarySlot(s);
            && p.kind == DocumentPatch
            && forall i :: 0 <= i < |p.children| ==> p.children[i].Para? && p.children[i].children[0].brk == 1
    ensures TextsOf(OverallSummarySlot(s).children) == SplitRuns(s)
    ensures JoinLines(TextsOf(OverallSummarySlot(s).children)) == CollapseNewlines(s)
  {
    JoinSplitRuns(s);
    ParagraphsTexts(OverallSummarySlot(s).children, SplitRuns(s));
  }

  /** One row of the risk-areas table: the area, and the rating in its
      colours. */
  function RiskRow(e: RiskEntry, riskColor: string -> RiskColor): Node {
    var colors := riskColor(e.rating);
    Row([Cell([TextPara(AreaName(e.area))], None, 1, true, Bordered, None),
         Cell([Para(Some(Center), [Run(e.rating, false, Some(colors.color), None, 0, false)],
                    NoSpacing, false, None, false)],
              Some(colors.background), 1, true, Bordered, None)],
        RowHeight)
  }

  function RiskAreasHeaderRow(): Node {
    Row([Cell([Para(Some(Center), [Run("Risk Areas", true, Some("ffffff"), None, 0, false)],
                    NoSpacing, false, None, false)],
              Some("595959"), 1, true, Bordered, Some(80)),
         Cell([Para(Some(Center), [Run("Risk Rating", true, Some("ffffff"), None, 0, false)],
                    NoSpacing, false, None, false)],
              Some("595959"), 1, true, Bordered, None)],
        RowHeight)
  }

  /** The risk-areas table: 75% wide, left-aligned, a header row and then one
      row per entry, in order. */
  function RiskAreasTableSlot(entries: seq<RiskEntry>, riskColor: string -> RiskColor): Patch {
    Patch(DocumentPatch, [Table([RiskAreasHeaderRow()] + RiskRows(entries, riskColor), 75, Some(Left), [], true)])
  }

  /** One risk row per entry, in order. */
  function RiskRows(entries: seq<RiskEntry>, riskColor: string -> RiskColor): seq<Node> {
    seq(|entries|, k requires 0 <= k < |entries| => RiskRow(entries[k], riskColor))
  }

  /** A risk row shows the area then the rating, the rating on its
      background colour in its foreground colour. */
  lemma RiskRowShows(e: RiskEntry, riskColor: string -> RiskColor)
    ensures var row := RiskRow(e, riskColor);
            && Texts(row) == [AreaName(e.area), e.rating]
            && row.cells[1].fill == Some(riskColor(e.rating).background)
            && row.cells[1].children[0].children[0].color == Some(riskColor(e.rating).color)
  {
    var row := RiskRow(e, riskColor);
    TextsOfSingle(PlainRun(AreaName(e.area)));
    TextsOfSingle(TextPara(AreaName(e.area)));
    TextsOfSingle(row.cells[1].children[0].children[0]);
    TextsOfSingle(row.cells[1].children[0]);
    TextsOfCons(row.cells[0], [row.cells[1]]);
    TextsOfSingle(row.cells[1]);
  }

  /** The risk-areas table lists the entries in order after its header, each
      row reading as the area's name then the rating, the rating's cell in
      the rating's background colour. */
  lemma RiskAreasTableShows(entries: seq<RiskEntry>, riskColor: string -> RiskColor)
    ensures var p := RiskAreasTableSlot(entries, riskColor);
            && p.kind == DocumentPatch && |p.children| == 1
            && var t := p.children[0];
               && t.Table? && t.widthPct == 75 && t.alignment == Some(Left) && t.bordered
               && |t.rows| == 1 + |entries| && t.rows[0] == RiskAreasHeaderRow()
               && forall k :: 0 <= k < |entries| ==>
                    && t.rows[k + 1] == RiskRow(entries[k], riskColor)
                    && Texts(t.rows[k + 1]) == [AreaName(entries[k].area), entries[k].rating]
                    && t.rows[k + 1].cells[1].fill == Some(riskColor(entries[k].rating).background)
  {
    var t := RiskAreasTableSlot(entries, riskColor).children[0];
    var rows := RiskRows(entries, riskColor);
    assert t.rows == [RiskAreasHeaderRow()] + rows;
    forall k | 0 <= k < |entries|
      ensures Texts(rows[k]) == [AreaName(entries[k].area), entries[k].rating]
              && rows[k].cells[1].fill == Some(riskColor(entries[k].rating).background)
    {
      RiskRowShows(entries[k], riskColor);
    }
    assert forall k :: 0 <= k < |entries| ==> t.rows[k + 1] == rows[k];
  }

  /** `new Paragraph({ pageBreakBefore: true })`. */
  const PageBreakSlot := Patch(DocumentPatch, [Para(None, [], NoSpacing, false, None, true)])

  /** The page-break slot is one empty paragraph that starts a new page. */
  lemma PageBreakShows()
    ensures PageBreakSlot.kind == DocumentPatch && |PageBreakSlot.children| == 1
    ensures PageBreakSlot.children[0].Para? && PageBreakSlot.children[0].pageBreakBefore
    ensures TextsOf(PageBreakSlot.children) == []
  {
    TextsOfSingle(PageBreakSlot.children[0]);
  }
}

