# Risk report patch set

This project models the content side of the risk-report generator in
`src/utils/generateReports.js`. It covers two parts:

- the builders that make the report's tables and paragraphs: `createCell`,
  `highlightRating`, `createNoHitsTable`, `createFindingsTable` and
  `createFindingsInnerTable`;
- the `patches` object that `generateReport` builds from one flat payload.
  This is the map from each placeholder of the report template to the content
  placed there.

The document library's classes (`TextRun`, `Paragraph`, `Table`, `TableRow`,
`TableCell`, `ImageRun`) are modelled as one datatype of content trees. Each
constructor keeps the formatting options the builders set. The `Texts` observer
reads a tree's text runs in document order. Most contracts are stated through
it: what a reader of the finished report sees in each slot, and in what order.

The modules:

- `Wrappers`: `Option` and `Result`.
- `JsText`: the JavaScript string operations the assembly uses:
  - `trim()`;
  - `split('\n')`, which is `SplitLines`;
  - `split(/\n+/)`, which is `SplitRuns`;
  - the decimal rendering of a number in a template string, which is `Decimal`.

  Each comes with its inverse or its reference definition: join the pieces
  back, collapse the line-feed runs, or trim again.
- `DocTree`: the content tree, patches, and the `Texts` observer.
- `Builders`: the five builders, and the pieces that the two findings tables
  share:
  - the four-cell header row;
  - the "Findings" row;
  - the frame of table plus empty paragraph.

  It also holds the bulleted risk-area paragraph and the findings slot
  choices: findings tables versus the "NO TRUE HITS IDENTIFIED" placeholder.
- `ReportSlots`: the content of the fixed slots:
  - the title, creation date and profile text runs;
  - the line lists;
  - the overall rating and summary;
  - the risk-areas table and the page break.
- `Report`: the rest of the assembly:
  - the payload and the derived `riskData`, `riskAreas` and cyber/ESG sections;
  - the slot enumeration with its placeholder names (`SlotName`);
  - `PatchOf`, which gives the content of one slot;
  - `GenerateReport`, which returns the whole patch set, or the generation
    error when a list or text field that the assembly calls a method on is
    absent;
  - the lemmas that tie each slot to the payload.

Two inputs are parameters of the model:

- The colour and ordinal-suffix helpers from `src/utils/helpers.js` are
  function-valued fields of `Helpers`. The model assumes nothing about them.
- The clock reading at module load becomes a `CreationDate` parameter.

What the code does with the findings slots, empty texts and absent fields:

- **Findings slots.** There are twelve findings slots, ten flat and two
  nested, driven by eleven flags. `legal_findings` is gated by the
  `bankruptcy_findings` flag. So with every flag false, all twelve slots hold
  the placeholder.
- **Placeholder choice.** For the ten flat categories only the flag chooses
  the placeholder. A set flag with an empty list gives an empty slot. For
  cyber security and ESG the placeholder appears exactly when the derived
  list is empty.
- **Splitting empty text.** `trim().split(/\n+/)` of an empty or
  whitespace-only text is one empty piece. That piece gives one paragraph
  (or run) with empty text.
- **Absent list fields.** An absent `shareholders`, `key_exec`,
  `summary_of_findings`, risk-area summary, or findings list under a set flag
  makes the code throw. The catch at lines 835-837 turns that into the
  generation error.

These quirks of the code are reproduced as written:

- the bankruptcy slot reads `backruptcy_data`;
- the PEP label is `PeP`;
- `riskAreas_antiBriberyAndAntiCorruption` is written twice, and the later
  spread entry wins, with the same content.

## Model

| member | source | states |
|---|---|---|
| JsText.Trim | src/utils/generateReports.js:307-309 | `trim()` leaves no trimmable character at either end, and removes only trimmable characters, all taken from the two ends of the input |
| JsText.TrimmedInfix | src/utils/generateReports.js:307-309 | what is left after dropping the trimmable characters at the start and then at the end is an infix with no trimmable character at either end, and only trimmable characters outside it |
| JsText.TrimOfTrimmed | src/utils/generateReports.js:653-655 | a property of `trim()` alone: a text with no trimmable character at either end is left unchanged |
| JsText.TrimIdempotent | src/utils/generateReports.js:688-690 | a property of `trim()` alone (the code trims once): its result is a fixed point |
| JsText.SplitLines | src/utils/generateReports.js:459 | `split('\n')` gives at least one piece, and no piece contains a line feed |
| JsText.JoinSplitLines | src/utils/generateReports.js:459 | joining the pieces of `split('\n')` with line feeds gives back the text, so empty lines survive |
| JsText.SplitJoinLines | src/utils/generateReports.js:465 | splitting the line-feed join of line-feed-free pieces gives back the pieces |
| JsText.SplitRuns | src/utils/generateReports.js:538 | `split(/\n+/)` gives at least one piece, and no piece contains a line feed |
| JsText.CollapseNewlines | src/utils/generateReports.js:538 | the reference for runs: no two adjacent line feeds remain, the first character is kept, the text never grows, and with every line feed removed the result and the input are equal |
| JsText.SplitRunsIsSplitOfCollapsed | src/utils/generateReports.js:538 | splitting at runs of line feeds is splitting at single line feeds after collapsing each run to one |
| JsText.JoinSplitRuns | src/utils/generateReports.js:538 | joining the pieces of `split(/\n+/)` with line feeds gives the text with its line-feed runs collapsed |
| JsText.SplitJoinRuns | src/utils/generateReports.js:538 | splitting the join of line-feed-free pieces with no empty inner piece gives back the pieces |
| JsText.SplitRunsFirstPiece | src/utils/generateReports.js:538 | the first piece is non-empty exactly when the text is non-empty and does not start with a line feed |
| JsText.SplitRunsLaterPieces | src/utils/generateReports.js:538 | when the text does not end with a line feed, every piece after the first is non-empty |
| JsText.SplitOfTrimmed | src/utils/generateReports.js:307-309 | `trim().split(/\n+/)` is `[""]` for a blank text, and otherwise only non-empty, line-feed-free pieces |
| JsText.Decimal | src/utils/generateReports.js:411 | the decimal text of a number is non-empty digits, without a leading zero, whose value is the number |
| Builders.CreateCell | src/utils/generateReports.js:78-98 | a vertically centred cell with the given fill, alignment and bold (defaults F2F2F2, centre, bold) and one size-20 run of the text; a missing or zero span becomes 1 |
| Builders.CreateCellDefaults | src/utils/generateReports.js:80-85 | with no options the cell is F2F2F2, centred, bold, span 1, and shows just its text |
| Builders.CreateCellTexts | src/utils/generateReports.js:87-97 | whatever the options, a cell shows exactly its text |
| Builders.HighlightRatingShape | src/utils/generateReports.js:100-124 | one centred paragraph, line spacing 180, shaded with the rating's background, holding the bold rating in its colour between two line breaks, and no other text |
| Builders.NoHitsMessage | src/utils/generateReports.js:151-154 | for a non-empty label the message starts with "<label> - ", ends with "NO TRUE HITS IDENTIFIED" and is exactly as long as the two together, so it is exactly "<label> - NO TRUE HITS IDENTIFIED"; for an empty label it is just the suffix |
| Builders.CreateNoHitsTable | src/utils/generateReports.js:126-167 | one 100% table of one row and one F2F2F2 cell holding one bold size-20 run, whose text is the message |
| Builders.NoHitsTableTexts | src/utils/generateReports.js:126-167 | the placeholder shows exactly its message |
| Builders.DetailParagraphs | src/utils/generateReports.js:310-319 | one paragraph, spaced 50 before and after, per detail line, in order |
| Builders.DetailParagraphsTexts | src/utils/generateReports.js:310-319 | the detail paragraphs show exactly the lines, in order |
| Builders.FindingsHeaderRowShape | src/utils/generateReports.js:269-289 | the header row has four cells: grey bold labels "Name & Relation" and "Rating", and white plain cells for the subject and the rating |
| Builders.FindingsHeaderRowTexts | src/utils/generateReports.js:176-196 | the header row shows "Name & Relation", subject, "Rating", rating, in order |
| Builders.FindingsLabelRowShape | src/utils/generateReports.js:291-302 | the "Findings" row is one grey, left-aligned, bold cell spanning four columns |
| Builders.FindingsLabelRowTexts | src/utils/generateReports.js:198-207 | the "Findings" row shows only "Findings" |
| Builders.FindingsFrameTexts | src/utils/generateReports.js:262-329 | a findings table reads as its header, label and body rows in order; the trailing paragraph is empty |
| Builders.DetailsRowTexts | src/utils/generateReports.js:303-325 | the details row shows the pieces of the trimmed details split at line-feed runs |
| Builders.FindingsTableShape | src/utils/generateReports.js:261-330 | a 100% centred table of 3 rows (4 header cells, one 4-span label cell, one white 4-span cell with one spaced paragraph per details piece, in order), then an empty paragraph |
| Builders.FindingsTableTexts | src/utils/generateReports.js:261-330 | a findings table shows "Name & Relation", definition, "Rating", rating, "Findings", then the details pieces |
| Builders.FlatOfPairs | src/utils/generateReports.js:729 | `.flat()` of two-node lists has twice as many nodes, list i at positions 2i and 2i+1 |
| Builders.FindingsTablesShape | src/utils/generateReports.js:729 | `data.map(createFindingsTable).flat()` is two nodes per item, in input order: that item's table, then an empty paragraph |
| Builders.FlatFindingsSlotShape | src/utils/generateReports.js:726-731 | with the flag set the slot is the findings tables of the list; otherwise it is the labelled placeholder; it is a placeholder exactly when the flag is unset |
| Builders.IndicatorRows | src/utils/generateReports.js:229-247 | one indicator row per item, in input order |
| Builders.IndicatorRowTexts | src/utils/generateReports.js:230-246 | an indicator row shows the item's definition, rating and details |
| Builders.IndicatorRowsTexts | src/utils/generateReports.js:229-247 | the indicator rows show each item's definition, rating and details, in input order |
| Builders.IndicatorHeaderRowTexts | src/utils/generateReports.js:220-227 | the inner header shows the inner title, "Rating" and "Notes" |
| Builders.InnerTableRows | src/utils/generateReports.js:217-249 | the inner table has 1 + n rows: the header, then row i+1 for item i, showing its definition, rating and details |
| Builders.InnerBodyRowTexts | src/utils/generateReports.js:208-254 | the body row shows the inner table's texts |
| Builders.FindingsInnerTableShape | src/utils/generateReports.js:169-259 | a 100% table of 3 rows (4 header cells, one 4-span label cell, one white 4-span cell holding empty paragraph, inner table, empty paragraph), then an empty paragraph |
| Builders.FindingsInnerTableTexts | src/utils/generateReports.js:169-259 | the nested table shows the header, "Findings", the inner header and every item's three texts, in order |
| Builders.NestedFindingsSlotShape | src/utils/generateReports.js:790-796 | the nested table when the list is non-empty, the labelled placeholder otherwise, and a placeholder exactly when the list is empty |
| Builders.SummaryLineRuns | src/utils/generateReports.js:653-662 | one run per line, in order; the first has break 0 and the rest break 1 |
| Builders.SummaryParagraph | src/utils/generateReports.js:643-668 | a bulleted paragraph spaced 300/300 whose runs are the trimmed text's line-feed-run pieces (break 0 first, 1 after), then one break-only run |
| Builders.SummaryParagraphTexts | src/utils/generateReports.js:652-667 | the paragraph shows the pieces then "", and joining the pieces gives the trimmed text with line-feed runs collapsed |
| Builders.RiskAreaSlotShape | src/utils/generateReports.js:677-704 | a risk-area slot is one summary paragraph per summary element, in order |
| Builders.HighlightRating | src/utils/generateReports.js:100-124 | no contract; see Builders.HighlightRatingShape |
| Builders.CreateFindingsTable | src/utils/generateReports.js:261-330 | no contract; see Builders.FindingsTableShape and Builders.FindingsTableTexts |
| Builders.CreateFindingsInnerTable | src/utils/generateReports.js:169-259 | no contract; see Builders.FindingsInnerTableShape and Builders.FindingsInnerTableTexts |
| Builders.FindingsTables | src/utils/generateReports.js:729 | no contract; see Builders.FindingsTablesShape |
| Builders.FlatFindingsSlot | src/utils/generateReports.js:726-789 | no contract; see Builders.FlatFindingsSlotShape and Report.FlatSlotLists |
| Builders.NestedFindingsSlot | src/utils/generateReports.js:790-803 | no contract; see Builders.NestedFindingsSlotShape and Report.NestedSlotLists |
| Builders.RiskAreaSlot | src/utils/generateReports.js:677-704 | no contract; see Builders.RiskAreaSlotShape |
| ReportSlots.TitleShows | src/utils/generateReports.js:387-407 | the title slot shows just the name, followed by a 500x400 image behind the text |
| ReportSlots.CreatedDateShows | src/utils/generateReports.js:408-415 | the date slot is a bold day whose digits read as the day, then the superscript suffix, then " month year" |
| ReportSlots.TextSlotShows | src/utils/generateReports.js:73-76 | a text slot is a paragraph patch showing exactly its text |
| ReportSlots.LinesSlotTexts | src/utils/generateReports.js:456-461 | one paragraph per `split('\n')` piece; joining the shown lines with line feeds gives back the field |
| ReportSlots.OverallRatingShows | src/utils/generateReports.js:475-533 | a 70% centred table of one row showing "OVERALL RISK RATING" and the level, the level cell in the level's colours |
| ReportSlots.OverallSummaryTexts | src/utils/generateReports.js:535-543 | one paragraph per line-feed-run piece, each run with break 1; the joined pieces give the summary with runs collapsed |
| ReportSlots.RiskRowShows | src/utils/generateReports.js:604-633 | a risk row shows the area's name and the rating, the rating cell in the rating's colours |
| ReportSlots.RiskAreasTableShows | src/utils/generateReports.js:544-638 | a 75% left-aligned bordered table: the header row, then row k+1 for entry k, showing its area and rating |
| ReportSlots.TitleSlot | src/utils/generateReports.js:387-407 | no contract; see ReportSlots.TitleShows |
| ReportSlots.CreatedDateSlot | src/utils/generateReports.js:408-415 | no contract; see ReportSlots.CreatedDateShows |
| ReportSlots.TextSlot | src/utils/generateReports.js:418-473 | no contract; see ReportSlots.TextSlotShows |
| ReportSlots.LinesSlot | src/utils/generateReports.js:456-467 | no contract; see ReportSlots.LinesSlotTexts |
| ReportSlots.OverallRatingSlot | src/utils/generateReports.js:475-533 | no contract; see ReportSlots.OverallRatingShows |
| ReportSlots.OverallSummarySlot | src/utils/generateReports.js:535-543 | no contract; see ReportSlots.OverallSummaryTexts |
| ReportSlots.RiskRow | src/utils/generateReports.js:604-633 | no contract; see ReportSlots.RiskRowShows |
| ReportSlots.RiskAreasTableSlot | src/utils/generateReports.js:544-638 | no contract; see ReportSlots.RiskAreasTableShows |
| ReportSlots.PageBreakShows | src/utils/generateReports.js:720-723 | the page-break slot `PageBreakSlot` is one empty paragraph that starts a new page |
| Report.RiskData | src/utils/generateReports.js:336-357 | exactly eight entries in the fixed area order, each with the payload's rating for that area |
| Report.RiskAreas | src/utils/generateReports.js:358-367 | exactly eight entries in the fixed area order, each with the payload's summary for that area |
| Report.CyberSection | src/utils/generateReports.js:368-373 | titled "<name> (Self)", rated with the cyber rating, with the cyber list when the flag is set and no rows otherwise |
| Report.EsgSection | src/utils/generateReports.js:374-379 | titled "<name> (Self)", rated with the ESG rating, with the ESG list when the flag is set and no rows otherwise |
| Report.RatingSlotLetter | src/utils/generateReports.js:710-717 | the k-th letter slot, `a_rating` to `h_rating`, belongs to the k-th area of `riskData` |
| Report.SpreadKeys | src/utils/generateReports.js:672-708 | the spread defines a `riskAreas_<key>` entry for each key, and nothing else |
| Report.SpreadValue | src/utils/generateReports.js:672-708 | an area's entry holds the summary slot of the last entry with that key |
| Report.SpreadInOrderKeys | src/utils/generateReports.js:672-708 | over the eight areas, the spread defines every risk-area slot and nothing else |
| Report.SpreadInOrderValues | src/utils/generateReports.js:672-708 | over the eight areas, area k's slot holds the summary paragraphs of entry k |
| Report.RiskAreaPatchesFollowRiskAreas | src/utils/generateReports.js:640-708 | with the explicit entry and the spread, the eight risk-area slots are defined, and each holds its own area's summary |
| Report.SpreadRiskAreas | src/utils/generateReports.js:672-708 | no contract; see Report.SpreadKeys and Report.SpreadValue |
| Report.RiskAreaPatches | src/utils/generateReports.js:640-708 | no contract; see Report.RiskAreaPatchesFollowRiskAreas |
| Report.FlagOf | src/utils/generateReports.js:726-789 | no contract; see Report.FlatFindingsSlotFollowsFlag |
| Report.DataOf | src/utils/generateReports.js:726-789 | no contract; see Report.FlatFindingsSlotFollowsFlag |
| Report.LabelOf | src/utils/generateReports.js:726-789 | no contract; see Report.FlatFindingsSlotFollowsFlag |
| Report.SlotName | src/utils/generateReports.js:386-804 | no contract; see Report.RatingSlotLetter |
| Report.PatchOf | src/utils/generateReports.js:386-804 | no contract; see the lemmas on each slot below |
| Report.Patches | src/utils/generateReports.js:386-804 | no contract; see Report.GenerateReport and Report.PatchAt |
| Report.GenerateReport | src/utils/generateReports.js:332-837 | the patch set is produced exactly when none of the list and text fields that `Complete` names is absent, and then it has an entry for every slot |
| Report.AllSlotsComplete | src/utils/generateReports.js:386-804 | the key set `AllSlots` lists every slot value, so the patch set has a key for every slot the `patches` object writes |
| Report.PatchAt | src/utils/generateReports.js:386-804 | for a complete payload, every slot is in the patch set with its content |
| Report.HeadingSlotsShowNameAndDate | src/utils/generateReports.js:387-415 | the title shows the name over a background image; the date shows day, suffix and " month year", the day's digits reading as the day |
| Report.ProfileSlotShowsField | src/utils/generateReports.js:418-473 | each company profile slot shows exactly its payload field |
| Report.LineSlotsRoundTrip | src/utils/generateReports.js:456-467 | shareholders and key executives show their lines, which rejoin to the original fields |
| Report.OverviewSlotsShowOverview | src/utils/generateReports.js:475-543 | the overall rating shows the label and the risk level in its colours; the overall summary rejoins to the summary with runs collapsed |
| Report.RiskAreasTableFollowsRiskData | src/utils/generateReports.js:544-638 | the risk-areas table has 9 rows: the header, then row k+1 showing the k-th area's name and rating |
| Report.RiskAreaSlotsHoldSummaries | src/utils/generateReports.js:672-708 | the slot of the k-th area holds the paragraphs of the k-th `riskAreas` summary |
| Report.RiskAreaSummariesArePayloads | src/utils/generateReports.js:358-367 | each risk-area slot holds the paragraphs of its own payload summary field |
| Report.RatingSlotHighlightsRating | src/utils/generateReports.js:710-717 | each letter slot highlights the rating of its own `riskData` entry |
| Report.FlatSlotLists | src/utils/generateReports.js:726-789 | a flat slot shows every item's table texts in order when its flag is set, and otherwise exactly the labelled placeholder |
| Report.FlatFindingsSlotFollowsFlag | src/utils/generateReports.js:726-789 | each of the ten flat slots follows its own flag, list and label (legal follows the bankruptcy flag) |
| Report.NestedSlotLists | src/utils/generateReports.js:790-803 | a nested slot is the placeholder exactly when there are no rows, and otherwise shows the nested table's texts in order |
| Report.NestedFindingsSlotFollowsFlag | src/utils/generateReports.js:790-803 | the cyber and ESG slots list their derived sections, under "CYBER SECURITY" and "ESG" |

## Left out

- **Writing and exporting.** Writing the document, converting it to PDF,
  uploading both files and deleting the local copies (lines 807-834) are file
  and network I/O. So is the upload helper, with its swallowed errors (lines
  31-42). The blob names are not modelled.
- **Template merging.** Merging the patches into the template (`patchDocument`,
  lines 383-805) happens inside the document library. The model stops at the
  patch set. The library's classes are datatype constructors.
- **Reading files.** The template and the title image are read from disk
  (lines 385, 393). The image is named by its path, and its floating position
  is not modelled.
- **Helpers.** The colour and ordinal-suffix helpers are parameters with no
  assumed content, because their source is not part of this model.
- **Clock.** The clock reading (lines 43-48) is the `CreationDate` parameter.
  Rendering the month name is part of that parameter.
- **Logging.** Logging (line 382) has no effect on the result.
- **Border and row styles.** Borders are a flag for the light-gray single
  border, and row heights are the "at least" minimum only. Widths are in
  percent, as the source sets them.
- Report.GenerateReport: two further throws caught at lines 835-837 are not
  modelled. A listed flat finding with no `kpi_details` throws at `.trim()`
  (lines 307-308), and so does a risk-area summary element that is not a
  string (lines 654 and 689). Finding details are strings and summaries are
  sequences of strings, so neither case can arise in the model.
- **Profile fields.** Scalar payload fields are strings. An absent scalar, which
  JavaScript renders as "undefined" in a template string, is not modelled.
- **Findings flags.** The flags are booleans. JavaScript truthiness of other
  values is not modelled.
- **Slot names.** `SlotName` gives each slot's placeholder name. That the names
  are pairwise distinct is not proved; only the letter rating names are pinned
  down, by `RatingSlotLetter`.
- **Other files.** The route wiring, the database pool and the socket
  broadcast are I/O plumbing outside the report assembly.
