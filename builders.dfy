/** The content builders of the report generator (src/utils/generateReports.js
    lines 78-330): table cells, the highlighted rating of a risk area, the
    "no true hits" placeholder, the flat and the nested findings tables, and
    the bulleted paragraphs of a risk-area summary. */
module Builders {
  import opened Wrappers
  import opened DocTree
  import opened JsText

  /** One finding: `kpi_definition`, `kpi_rating`, `kpi_details`. */
  datatype Kpi = Kpi(definition: string, rating: string, details: string)

  /** The record createFindingsInnerTable reads: `title`, `rating`,
      `inner_title` and the indicator rows `data`. */
  datatype IndicatorSection =
    IndicatorSection(title: string, rating: string, innerTitle: string, data: seq<Kpi>)

  /** The foreground and background colour getRiskColor gives a rating. */
  datatype RiskColor = RiskColor(color: string, background: string)

  /** The options object of createCell; `None` is a property left out, which
      takes the default of the destructuring pattern. */
  datatype CellOptions = CellOptions(background: Option<string>, alignment: Option<Alignment>,
                                     bold: Option<bool>, columnSpan: Option<int>)

  const NoOptions := CellOptions(None, None, None, None)

  /** The minimum height every findings row is given. */
  const RowHeight: nat := 500

  /** A cell as createCell makes it: vertically centred, shaded with `fill`,
      spanning `span` columns and holding one paragraph with one run of
      size 20 carrying `text`. */
  predicate IsTextCell(c: Node, text: string, fill: string, alignment: Alignment, bold: bool, span: int) {
    && c.Cell? && c.fill == Some(fill) && c.columnSpan == span
    && c.vCenter && !c.bordered && c.cellWidthPct == None
    && c.children == [Para(Some(alignment), [Run(text, bold, None, Some(20), 0, false)],
                           NoSpacing, false, None, false)]
  }

  /** A text cell shows exactly its text. */
  lemma TextCellTexts(c: Node, text: string, fill: string, alignment: Alignment, bold: bool, span: int)
    requires IsTextCell(c, text, fill, alignment, bold, span)
    ensures Texts(c) == [text]
  {
    var run := Run(text, bold, None, Some(20), 0, false);
    TextsOfSingle(run);
    TextsOfSingle(c.children[0]);
  }

  /** createCell: the options left out default to fill `F2F2F2`, centred,
      bold and one column; a span of 0 is taken as 1 (`columnSpan || 1`),
      any other span is kept. */
  function CreateCell(text: string, opts: CellOptions): (c: Node)
    ensures c.Cell? && IsTextCell(c, text, opts.background.GetOr("F2F2F2"),
                                  opts.alignment.GetOr(Center), opts.bold.GetOr(true), c.columnSpan)
    ensures c.columnSpan != 0
    ensures opts.columnSpan.Some? && opts.columnSpan.value != 0 ==> c.columnSpan == opts.columnSpan.value
    ensures opts.columnSpan.None? || opts.columnSpan == Some(0) ==> c.columnSpan == 1
  {
    var span := opts.columnSpan.GetOr(1);
    Cell([Para(Some(opts.alignment.GetOr(Center)),
               [Run(text, opts.bold.GetOr(true), None, Some(20), 0, false)],
               NoSpacing, false, None, false)],
         Some(opts.background.GetOr("F2F2F2")),
         if span == 0 then 1 else span,
         true, false, None)
  }

  /** createCell with no options at all: grey, centred, bold, one column. */
  lemma CreateCellDefaults(text: string)
    ensures IsTextCell(CreateCell(text, NoOptions), text, "F2F2F2", Center, true, 1)
    ensures Texts(CreateCell(text, NoOptions)) == [text]
  {
    TextCellTexts(CreateCell(text, NoOptions), text, "F2F2F2", Center, true, 1);
  }

  lemma CreateCellTexts(text: string, opts: CellOptions)
    ensures Texts(CreateCell(text, opts)) == [text]
  {
    var c := CreateCell(text, opts);
    TextCellTexts(c, text, opts.background.GetOr("F2F2F2"), opts.alignment.GetOr(Center),
                  opts.bold.GetOr(true), c.columnSpan);
  }

  /** highlightRating: one centred paragraph shaded with the rating's
      background colour, showing the rating in bold in its foreground colour
      between two line breaks. */
  function HighlightRating(rating: string, riskColor: string -> RiskColor): Patch {
    var colors := riskColor(rating);
    Patch(DocumentPatch,
          [Para(Some(Center),
                [BreakRun, Run(rating, true, Some(colors.color), None, 0, false), BreakRun],
                Spacing(None, None, Some(180)), false, Some(colors.background), false)])
  }

  /** The highlighted rating is one centred paragraph with line spacing 180,
      shaded with the rating's background colour, holding the rating in bold
      in its foreground colour between two line breaks, and no other text. */
  lemma HighlightRatingShape(rating: string, riskColor: string -> RiskColor)
    ensures var p := HighlightRating(rating, riskColor);
            && p.kind == DocumentPatch && |p.children| == 1
            && var para := p.children[0];
               && para.Para? && para.alignment == Some(Center)
               && para.shading == Some(riskColor(rating).background)
               && para.spacing == Spacing(None, None, Some(180))
               && |para.children| == 3
               && para.children[0] == BreakRun && para.children[2] == BreakRun
               && para.children[1].Run? && para.children[1].bold && para.children[1].brk == 0
               && para.children[1].color == Some(riskColor(rating).color)
    ensures TextsOf(HighlightRating(rating, riskColor).children) == ["", rating, ""]
  {
    var para := HighlightRating(rating, riskColor).children[0];
    TextsOfThree(para.children[0], para.children[1], para.children[2]);
    TextsOfSingle(para);
  }

  // ---------------------------------------------------------------------
  // The "no true hits" placeholder

  const NoHitsText := "NO TRUE HITS IDENTIFIED"

  predicate EndsWith(s: string, suffix: string) {
    |suffix| <= |s| && s[|s| - |suffix|..] == suffix
  }

  /** The placeholder shape: one full-width table of one row with one
      `F2F2F2` cell holding one bold size-20 run that ends with
      "NO TRUE HITS IDENTIFIED". */
  predicate IsNoHitsFallback(nodes: seq<Node>) {
    && |nodes| == 1 && nodes[0].Table? && nodes[0].widthPct == 100
    && |nodes[0].rows| == 1 && nodes[0].rows[0].Row? && |nodes[0].rows[0].cells| == 1
    && var cell := nodes[0].rows[0].cells[0];
       && cell.Cell? && cell.fill == Some("F2F2F2") && |cell.children| == 1
       && cell.children[0].Para? && |cell.children[0].children| == 1
       && var run := cell.children[0].children[0];
          run.Run? && run.bold && run.size == Some(20) && EndsWith(run.text, NoHitsText)
  }

  /** The placeholder's message: "<category> - NO TRUE HITS IDENTIFIED", or
      just "NO TRUE HITS IDENTIFIED" for an empty category. */
  function NoHitsMessage(category: string): (m: string)
    ensures EndsWith(m, NoHitsText)
    ensures category != "" ==> |m| == |category| + 3 + |NoHitsText| && m[..|category| + 3] == category + " - "
    ensures category == "" ==> m == NoHitsText
  {
    var m := if category != "" then category + " - " + NoHitsText else NoHitsText;
    assert category != "" ==> m[..|category| + 3] == category + " - ";
    m
  }

  /** createNoHitsTable: the placeholder, whose only text is the category's
      message. */
  function CreateNoHitsTable(category: string): (r: seq<Node>)
    ensures IsNoHitsFallback(r)
    ensures r[0].rows[0].cells[0].children[0].children[0].text == NoHitsMessage(category)
  {
    [Table([Row([Cell([Para(Some(Center), [Run(NoHitsMessage(category), true, None, Some(20), 0, false)],
                            NoSpacing, false, None, false)],
                      Some("F2F2F2"), 1, true, false, None)],
                RowHeight)],
           100, None, [], false)]
  }

  /** The placeholder holds no text but its message. */
  lemma NoHitsTableTexts(category: string)
    ensures TextsOf(CreateNoHitsTable(category)) == [NoHitsMessage(category)]
  {
    var table := CreateNoHitsTable(category)[0];
    var cell := table.rows[0].cells[0];
    TextsOfSingle(cell.children[0].children[0]);
    TextsOfSingle(cell.children[0]);
    TextsOfSingle(cell);
    TextsOfSingle(table.rows[0]);
    TextsOfSingle(table);
  }

  // ---------------------------------------------------------------------
  // The flat findings table

  /** One line of a finding's details: a plain run with 50 before and after. */
  function DetailParagraph(line: string): Node {
    Para(None, [Run(line, false, None, None, 0, false)], Spacing(Some(50), Some(50), None),
         false, None, false)
  }

  /** `lines.map(...)`: one detail paragraph per line, in order. */
  function DetailParagraphs(lines: seq<string>): (r: seq<Node>)
    ensures |r| == |lines| && forall i :: 0 <= i < |lines| ==> r[i] == DetailParagraph(lines[i])
  {
    seq(|lines|, i requires 0 <= i < |lines| => DetailParagraph(lines[i]))
  }

  /** The detail paragraphs show exactly the lines they were made from. */
  lemma {:induction false} DetailParagraphsTexts(lines: seq<string>)
    ensures TextsOf(DetailParagraphs(lines)) == lines
    decreases |lines|
  {
    if lines != [] {
      var r := DetailParagraphs(lines);
      DetailParagraphsTexts(lines[1..]);
      assert r[1..] == DetailParagraphs(lines[1..]);
      TextsOfSingle(r[0].children[0]);
      assert Texts(r[0]) == [lines[0]];
      TextsOfCons(r[0], r[1..]);
      assert [r[0]] + r[1..] == r;
    }
  }

  /** The header row of both findings tables: "Name & Relation", the
      subject, "Rating", the rating. */
  function FindingsHeaderRow(subject: string, rating: string, boldLabel: Option<bool>): Node {
    Row([CreateCell("Name & Relation", CellOptions(Some("f2f2f2"), Some(Left), boldLabel, None)),
         CreateCell(subject, CellOptions(Some("ffffff"), Some(Center), Some(false), None)),
         CreateCell("Rating", NoOptions),
         CreateCell(rating, CellOptions(Some("ffffff"), Some(Center), Some(false), None))],
        RowHeight)
  }

  /** The "Findings" row of both findings tables, across four columns. */
  function FindingsLabelRow(boldLabel: Option<bool>): Node {
    Row([CreateCell("Findings", CellOptions(Some("f2f2f2"), Some(Left), boldLabel, Some(4)))], RowHeight)
  }

  /** The header row: four cells, the labels grey and bold, the values white
      and plain; it shows the labels and values in order. */
  lemma FindingsHeaderRowShape(subject: string, rating: string, boldLabel: Option<bool>)
    requires boldLabel != Some(false)
    ensures var row := FindingsHeaderRow(subject, rating, boldLabel);
            && row.Row? && |row.cells| == 4 && row.minHeight == RowHeight
            && IsTextCell(row.cells[0], "Name & Relation", "f2f2f2", Left, true, 1)
            && IsTextCell(row.cells[1], subject, "ffffff", Center, false, 1)
            && IsTextCell(row.cells[2], "Rating", "F2F2F2", Center, true, 1)
            && IsTextCell(row.cells[3], rating, "ffffff", Center, false, 1)
            && Texts(row) == ["Name & Relation", subject, "Rating", rating]
  {
    FindingsHeaderRowTexts(subject, rating, boldLabel);
  }

  /** The header row reads "Name & Relation", the subject, "Rating", the
      rating. */
  lemma FindingsHeaderRowTexts(subject: string, rating: string, boldLabel: Option<bool>)
    ensures Texts(FindingsHeaderRow(subject, rating, boldLabel)) == ["Name & Relation", subject, "Rating", rating]
  {
    var row := FindingsHeaderRow(subject, rating, boldLabel);
    CreateCellTexts("Name & Relation", CellOptions(Some("f2f2f2"), Some(Left), boldLabel, None));
    CreateCellTexts(subject, CellOptions(Some("ffffff"), Some(Center), Some(false), None));
    CreateCellTexts("Rating", NoOptions);
    CreateCellTexts(rating, CellOptions(Some("ffffff"), Some(Center), Some(false), None));
    TextsOfFour(row.cells[0], row.cells[1], row.cells[2], row.cells[3]);
  }

  /** The "Findings" row: one grey bold cell across four columns. */
  lemma FindingsLabelRowShape(boldLabel: Option<bool>)
    requires boldLabel != Some(false)
    ensures var row := FindingsLabelRow(boldLabel);
            && row.Row? && |row.cells| == 1 && row.minHeight == RowHeight
            && IsTextCell(row.cells[0], "Findings", "f2f2f2", Left, true, 4)
            && Texts(row) == ["Findings"]
  {
    FindingsLabelRowTexts(boldLabel);
  }

  lemma FindingsLabelRowTexts(boldLabel: Option<bool>)
    ensures Texts(FindingsLabelRow(boldLabel)) == ["Findings"]
  {
    CreateCellTexts("Findings", CellOptions(Some("f2f2f2"), Some(Left), boldLabel, Some(4)));
    TextsOfSingle(FindingsLabelRow(boldLabel).cells[0]);
  }

  /** The frame both findings tables share: a full-width table of a header
      row, a label row and a body row, then an empty paragraph. */
  function FindingsFrame(header: Node, labelRow: Node, body: Node, alignment: Option<Alignment>): seq<Node> {
    [Table([header, labelRow, body], 100, alignment, [], false), EmptyPara]
  }

  /** A findings frame reads as its three rows in order. */
  lemma FindingsFrameTexts(header: Node, labelRow: Node, body: Node, alignment: Option<Alignment>)
    ensures TextsOf(FindingsFrame(header, labelRow, body, alignment)) == Texts(header) + Texts(labelRow) + Texts(body)
  {
    var r := FindingsFrame(header, labelRow, body, alignment);
    TextsOfThree(header, labelRow, body);
    assert Texts(EmptyPara) == [];
    TextsOfSingle(EmptyPara);
    TextsOfCons(r[0], [EmptyPara]);
    assert [r[0]] + [EmptyPara] == r;
  }

  /** The body row of a flat findings table: one white cell across four
      columns holding one paragraph per piece of the trimmed details cut at
      runs of line feeds. */
  function DetailsRow(details: string): Node {
    Row([Cell(DetailParagraphs(SplitRuns(Trim(details))), Some("ffffff"), 4, false, false, None)], RowHeight)
  }

  lemma DetailsRowTexts(details: string)
    ensures Texts(DetailsRow(details)) == SplitRuns(Trim(details))
  {
    DetailParagraphsTexts(SplitRuns(Trim(details)));
    TextsOfSingle(DetailsRow(details).cells[0]);
  }

  /** createFindingsTable. */
  function CreateFindingsTable(f: Kpi): seq<Node> {
    FindingsFrame(FindingsHeaderRow(f.definition, f.rating, Some(true)), FindingsLabelRow(Some(true)),
                  DetailsRow(f.details), Some(Center))
  }

  /** A flat findings table is a full-width centred table of three rows, the
      third one white cell across four columns, then an empty paragraph. */
  lemma FindingsTableShape(f: Kpi)
    ensures var r := CreateFindingsTable(f);
            && |r| == 2 && r[1] == EmptyPara
            && r[0].Table? && r[0].widthPct == 100 && r[0].alignment == Some(Center) && |r[0].rows| == 3
            && |r[0].rows[0].cells| == 4
            && |r[0].rows[1].cells| == 1 && r[0].rows[1].cells[0].columnSpan == 4
            && var pieces := SplitRuns(Trim(f.details));
               && |r[0].rows[2].cells| == 1
               && var body := r[0].rows[2].cells[0];
                  && body.columnSpan == 4 && body.fill == Some("ffffff") && |body.children| == |pieces|
                  && forall i :: 0 <= i < |pieces| ==>
                       body.children[i].Para? && body.children[i].spacing == Spacing(Some(50), Some(50), None)
                       && body.children[i].children == [PlainRun(pieces[i])]
  {
  }

  /** Read out, a flat findings table shows "Name & Relation", the
      definition, "Rating", the rating, "Findings", then the detail lines:
      the trimmed details cut at runs of line feeds. */
  lemma FindingsTableTexts(f: Kpi)
    ensures TextsOf(CreateFindingsTable(f)) == ["Name & Relation", f.definition, "Rating", f.rating, "Findings"]
                                              + SplitRuns(Trim(f.details))
  {
    var header := FindingsHeaderRow(f.definition, f.rating, Some(true));
    var labelRow := FindingsLabelRow(Some(true));
    var body := DetailsRow(f.details);
    FindingsHeaderRowTexts(f.definition, f.rating, Some(true));
    FindingsLabelRowTexts(Some(true));
    DetailsRowTexts(f.details);
    FindingsFrameTexts(header, labelRow, body, Some(Center));
  }

  /** `xs.flat()`: the lists one after the other. */
  function Flat(xs: seq<seq<Node>>): seq<Node> {
    if xs == [] then [] else xs[0] + Flat(xs[1..])
  }

  /** Flattening lists of two nodes each puts list i at positions 2i and
      2i+1. */
  lemma {:induction false} FlatOfPairs(xs: seq<seq<Node>>)
    requires forall i :: 0 <= i < |xs| ==> |xs[i]| == 2
    ensures |Flat(xs)| == 2 * |xs|
    ensures forall i :: 0 <= i < |xs| ==> Flat(xs)[2 * i] == xs[i][0] && Flat(xs)[2 * i + 1] == xs[i][1]
    decreases |xs|
  {
    if xs != [] {
      var tail := xs[1..];
      FlatOfPairs(tail);
      forall i | 0 <= i < |xs|
        ensures Flat(xs)[2 * i] == xs[i][0] && Flat(xs)[2 * i + 1] == xs[i][1]
      {
        if i > 0 {
          assert tail[i - 1] == xs[i];
          assert Flat(xs)[2 * i] == Flat(tail)[2 * (i - 1)];
          assert Flat(xs)[2 * i + 1] == Flat(tail)[2 * (i - 1) + 1];
        }
      }
    }
  }

  /** `data.map(createFindingsTable).flat()`. */
  function FindingsTables(data: seq<Kpi>): seq<Node> {
    Flat(seq(|data|, i requires 0 <= i < |data| => CreateFindingsTable(data[i])))
  }

  /** The findings tables are two nodes per finding, the finding's table and
      an empty paragraph, in input order. */
  lemma FindingsTablesShape(data: seq<Kpi>)
    ensures |FindingsTables(data)| == 2 * |data|
    ensures forall i :: 0 <= i < |data| ==>
              FindingsTables(data)[2 * i] == CreateFindingsTable(data[i])[0]
              && FindingsTables(data)[2 * i + 1] == EmptyPara
  {
    var tables := seq(|data|, i requires 0 <= i < |data| => CreateFindingsTable(data[i]));
    FlatOfPairs(tables);
  }

  /** The slot of a flat findings category: the findings tables when the
      category's flag is set, otherwise the category's placeholder. */
  function FlatFindingsSlot(flag: bool, data: Option<seq<Kpi>>, category: string): Patch
    requires flag ==> data.Some?
  {
    Patch(DocumentPatch, if flag then FindingsTables(data.value) else CreateNoHitsTable(category))
  }

  /** The placeholder appears exactly when the flag is not set; a set flag
      with no findings leaves the slot empty. */
  lemma FlatFindingsSlotShape(flag: bool, data: Option<seq<Kpi>>, category: string)
    requires flag ==> data.Some?
    ensures var p := FlatFindingsSlot(flag, data, category);
            && p.kind == DocumentPatch
            && (!flag ==> p.children == CreateNoHitsTable(category))
            && (flag ==> |p.children| == 2 * |data.value|
                         && forall i :: 0 <= i < |data.value| ==>
                              p.children[2 * i] == CreateFindingsTable(data.value[i])[0]
                              && p.children[2 * i + 1] == EmptyPara)
            && (IsNoHitsFallback(p.children) <==> !flag)
  {
    if flag {
      FindingsTablesShape(data.value);
    }
  }

  // ---------------------------------------------------------------------
  // The nested (indicator) findings table

  /** One indicator row: definition, rating and details in white, not bold. */
  function IndicatorRow(item: Kpi): Node {
    var plain := CellOptions(Some("ffffff"), None, Some(false), None);
    Row([CreateCell(item.definition, plain), CreateCell(item.rating, plain),
         CreateCell(item.details, plain)], RowHeight)
  }

  function IndicatorRows(data: seq<Kpi>): (r: seq<Node>)
    ensures |r| == |data| && forall i :: 0 <= i < |data| ==> r[i] == IndicatorRow(data[i])
  {
    seq(|data|, i requires 0 <= i < |data| => IndicatorRow(data[i]))
  }

  /** An indicator row shows definition, rating and details, in that order. */
  lemma IndicatorRowTexts(item: Kpi)
    ensures Texts(IndicatorRow(item)) == [item.definition, item.rating, item.details]
  {
    var plain := CellOptions(Some("ffffff"), None, Some(false), None);
    var row := IndicatorRow(item);
    CreateCellTexts(item.definition, plain);
    CreateCellTexts(item.rating, plain);
    CreateCellTexts(item.details, plain);
    TextsOfThree(row.cells[0], row.cells[1], row.cells[2]);
  }

  /** The texts of the indicator rows: definition, rating, details per row. */
  function IndicatorTexts(data: seq<Kpi>): seq<string> {
    if data == [] then []
    else [data[0].definition, data[0].rating, data[0].details] + IndicatorTexts(data[1..])
  }

  lemma {:induction false} IndicatorRowsTexts(data: seq<Kpi>)
    ensures TextsOf(IndicatorRows(data)) == IndicatorTexts(data)
    decreases |data|
  {
    if data != [] {
      var r := IndicatorRows(data);
      IndicatorRowsTexts(data[1..]);
      assert r[1..] == IndicatorRows(data[1..]);
      IndicatorRowTexts(data[0]);
      TextsOfCons(r[0], r[1..]);
      assert [r[0]] + r[1..] == r;
    }
  }

  /** The header row of the inner table: the inner title, "Rating" and
      "Notes", grey and bold. */
  function IndicatorHeaderRow(innerTitle: string): Node {
    Row([CreateCell(innerTitle, NoOptions), CreateCell("Rating", NoOptions), CreateCell("Notes", NoOptions)],
        RowHeight)
  }

  lemma IndicatorHeaderRowTexts(innerTitle: string)
    ensures Texts(IndicatorHeaderRow(innerTitle)) == [innerTitle, "Rating", "Notes"]
  {
    var row := IndicatorHeaderRow(innerTitle);
    CreateCellTexts(innerTitle, NoOptions);
    CreateCellTexts("Rating", NoOptions);
    CreateCellTexts("Notes", NoOptions);
    TextsOfThree(row.cells[0], row.cells[1], row.cells[2]);
  }

  /** The table inside the third row of a nested findings table: the header
      row and one row per indicator. */
  function InnerTable(s: IndicatorSection): Node {
    Table([IndicatorHeaderRow(s.innerTitle)] + IndicatorRows(s.data), 100, None, [], false)
  }

  /** The inner table has one header row and then exactly one row per
      indicator, in input order: row i+1 shows indicator i's definition,
      rating and details. */
  lemma InnerTableRows(s: IndicatorSection)
    ensures var inner := InnerTable(s);
            && |inner.rows| == 1 + |s.data|
            && Texts(inner.rows[0]) == [s.innerTitle, "Rating", "Notes"]
            && forall i :: 0 <= i < |s.data| ==>
                 inner.rows[i + 1] == IndicatorRow(s.data[i])
                 && Texts(inner.rows[i + 1]) == [s.data[i].definition, s.data[i].rating, s.data[i].details]
    ensures Texts(InnerTable(s)) == [s.innerTitle, "Rating", "Notes"] + IndicatorTexts(s.data)
  {
    var inner := InnerTable(s);
    IndicatorHeaderRowTexts(s.innerTitle);
    forall i | 0 <= i < |s.data|
      ensures Texts(inner.rows[i + 1]) == [s.data[i].definition, s.data[i].rating, s.data[i].details]
    {
      IndicatorRowTexts(s.data[i]);
    }
    IndicatorRowsTexts(s.data);
    TextsOfCons(IndicatorHeaderRow(s.innerTitle), IndicatorRows(s.data));
  }

  /** The body row of a nested findings table: one white cell across four
      columns holding the inner table between two empty paragraphs. */
  function InnerBodyRow(s: IndicatorSection): Node {
    Row([Cell([EmptyPara, InnerTable(s), EmptyPara], Some("ffffff"), 4, false, false, None)], RowHeight)
  }

  lemma InnerBodyRowTexts(s: IndicatorSection)
    ensures Texts(InnerBodyRow(s)) == [s.innerTitle, "Rating", "Notes"] + IndicatorTexts(s.data)
  {
    InnerTableRows(s);
    assert Texts(EmptyPara) == [];
    TextsOfThree(EmptyPara, InnerTable(s), EmptyPara);
    TextsOfSingle(InnerBodyRow(s).cells[0]);
  }

  /** createFindingsInnerTable. */
  function CreateFindingsInnerTable(s: IndicatorSection): seq<Node> {
    FindingsFrame(FindingsHeaderRow(s.title, s.rating, None), FindingsLabelRow(None), InnerBodyRow(s), None)
  }

  /** A nested findings table is a full-width table of three rows, the third
      one white cell across four columns, then an empty paragraph. */
  lemma FindingsInnerTableShape(s: IndicatorSection)
    ensures var r := CreateFindingsInnerTable(s);
            && |r| == 2 && r[1] == EmptyPara
            && r[0].Table? && r[0].widthPct == 100 && |r[0].rows| == 3
            && |r[0].rows[0].cells| == 4
            && |r[0].rows[1].cells| == 1 && r[0].rows[1].cells[0].columnSpan == 4
            && |r[0].rows[2].cells| == 1
            && var body := r[0].rows[2].cells[0];
               && body.columnSpan == 4 && body.fill == Some("ffffff")
               && body.children == [EmptyPara, InnerTable(s), EmptyPara]
  {
  }

  /** Read out, a nested findings table shows "Name & Relation", the title,
      "Rating", the rating, "Findings", the inner header, then definition,
      rating and details of each indicator. */
  lemma FindingsInnerTableTexts(s: IndicatorSection)
    ensures TextsOf(CreateFindingsInnerTable(s)) ==
              ["Name & Relation", s.title, "Rating", s.rating, "Findings", s.innerTitle, "Rating", "Notes"]
              + IndicatorTexts(s.data)
  {
    var header := FindingsHeaderRow(s.title, s.rating, None);
    var labelRow := FindingsLabelRow(None);
    var body := InnerBodyRow(s);
    FindingsHeaderRowTexts(s.title, s.rating, None);
    FindingsLabelRowTexts(None);
    InnerBodyRowTexts(s);
    FindingsFrameTexts(header, labelRow, body, None);
  }

  /** The slot of a nested findings category: the nested table when there is
      at least one indicator row, otherwise the category's placeholder. */
  function NestedFindingsSlot(s: IndicatorSection, category: string): Patch {
    Patch(DocumentPatch, if |s.data| > 0 then CreateFindingsInnerTable(s) else CreateNoHitsTable(category))
  }

  /** The placeholder appears exactly when there are no indicator rows. */
  lemma NestedFindingsSlotShape(s: IndicatorSection, category: string)
    ensures var p := NestedFindingsSlot(s, category);
            && p.kind == DocumentPatch
            && (|s.data| > 0 ==> p.children == CreateFindingsInnerTable(s))
            && (|s.data| == 0 ==> p.children == CreateNoHitsTable(category))
            && (IsNoHitsFallback(p.children) <==> |s.data| == 0)
  {
  }

  // ---------------------------------------------------------------------
  // Risk-area summaries

  /** The runs of one summary element: one per line, the first without a
      break and every later one after a line break. */
  function SummaryLineRuns(lines: seq<string>): (r: seq<Node>)
    ensures |r| == |lines|
    ensures forall i :: 0 <= i < |lines| ==>
              r[i] == Run(lines[i], false, None, None, if i == 0 then 0 else 1, false)
  {
    seq(|lines|, i requires 0 <= i < |lines| => Run(lines[i], false, None, None, if i == 0 then 0 else 1, false))
  }

  /** Texts depend only on the runs' texts. */
  lemma {:induction false} RunsTexts(runs: seq<Node>, lines: seq<string>)
    requires |runs| == |lines|
    requires forall i :: 0 <= i < |runs| ==> runs[i].Run? && runs[i].text == lines[i]
    ensures TextsOf(runs) == lines
    decreases |runs|
  {
    if runs != [] {
      RunsTexts(runs[1..], lines[1..]);
      TextsOfCons(runs[0], runs[1..]);
      assert [runs[0]] + runs[1..] == runs;
      assert [lines[0]] + lines[1..] == lines;
    }
  }

  /** One element of a risk-area summary as a bulleted paragraph, 300 before
      and after, whose runs are the lines of the trimmed text cut at runs of
      line feeds (the first without a break, the others after one), then one
      break-only run. */
  function SummaryParagraph(text: string): (p: Node)
    ensures p.Para? && p.bullet && p.spacing == Spacing(Some(300), Some(300), None)
    ensures var lines := SplitRuns(Trim(text));
            && |p.children| == |lines| + 1 && p.children[|lines|] == BreakRun
            && forall i :: 0 <= i < |lines| ==>
                 p.children[i].Run? && p.children[i].text == lines[i]
                 && p.children[i].brk == (if i == 0 then 0 else 1)
  {
    var lines := SplitRuns(Trim(text));
    Para(None, SummaryLineRuns(lines) + [BreakRun], Spacing(Some(300), Some(300), None), true, None, false)
  }

  /** A summary paragraph shows the summary's lines and then the trailing
      break; joined with line feeds, the lines give back the trimmed summary
      with every run of line feeds collapsed to one: the paragraph loses
      nothing of the text but blank lines and surrounding white space. */
  lemma SummaryParagraphTexts(text: string)
    ensures var t := TextsOf(SummaryParagraph(text).children);
            && t == SplitRuns(Trim(text)) + [""]
            && JoinLines(t[..|t| - 1]) == CollapseNewlines(Trim(text))
  {
    var lines := SplitRuns(Trim(text));
    var p := SummaryParagraph(text);
    RunsTexts(p.children, lines + [""]);
    JoinSplitRuns(Trim(text));
    assert (lines + [""])[..|lines|] == lines;
  }

  /** A `riskAreas_<key>` slot: one summary paragraph per summary element,
      in order. */
  function RiskAreaSlot(summary: seq<string>): Patch {
    Patch(DocumentPatch, seq(|summary|, i requires 0 <= i < |summary| => SummaryParagraph(summary[i])))
  }

  /** A `riskAreas_<key>` slot holds one summary paragraph per element of the
      summary, in order. */
  lemma RiskAreaSlotShape(summary: seq<string>)
    ensures var p := RiskAreaSlot(summary);
            && p.kind == DocumentPatch && |p.children| == |summary|
            && forall i :: 0 <= i < |summary| ==> p.children[i] == SummaryParagraph(summary[i])
  {
  }
}
