/** The content tree the report's template slots are filled with: text runs,
    paragraphs, tables, rows, cells and images, each with the formatting
    options the report builders set. Options a builder leaves unset are
    `None` (or `false`, `0`, `[]` for flags, breaks and column widths). */
module DocTree {
  import opened Wrappers

  datatype Alignment = Left | Center

  /** How a slot is merged into the template: as runs inside the anchor's
      paragraph, or as block content replacing it. */
  datatype PatchKind = ParagraphPatch | DocumentPatch

  /** Paragraph spacing: before and after, and the line spacing. */
  datatype Spacing = Spacing(before: Option<nat>, after: Option<nat>, line: Option<nat>)

  const NoSpacing := Spacing(None, None, None)

  datatype Node =
      /** A text run; `size` is in half-points and `brk` counts the line
          breaks placed before the text. */
    | Run(text: string, bold: bool, color: Option<string>, size: Option<nat>,
          brk: nat, superScript: bool)
    | Para(alignment: Option<Alignment>, children: seq<Node>, spacing: Spacing,
           bullet: bool, shading: Option<string>, pageBreakBefore: bool)
      /** A table; `widthPct` is its width in percent of the page, and
          `bordered` says the light-gray single border is set. */
    | Table(rows: seq<Node>, widthPct: nat, alignment: Option<Alignment>,
            columnWidths: seq<nat>, bordered: bool)
      /** A table row of at least `minHeight` twips. */
    | Row(cells: seq<Node>, minHeight: nat)
    | Cell(children: seq<Node>, fill: Option<string>, columnSpan: int,
           vCenter: bool, bordered: bool, cellWidthPct: Option<nat>)
      /** A picture, named by the file it is read from. */
    | Image(source: string, width: nat, height: nat, behindDocument: bool)

  /** One slot's content. */
  datatype Patch = Patch(kind: PatchKind, children: seq<Node>)

  /** `new TextRun(text)` and `new TextRun({ text })`. */
  function PlainRun(text: string): Node {
    Run(text, false, None, None, 0, false)
  }

  /** `new TextRun({ break: 1 })`: a line break with no text. */
  const BreakRun: Node := Run("", false, None, None, 1, false)

  /** `new Paragraph({})`. */
  const EmptyPara: Node := Para(None, [], NoSpacing, false, None, false)

  /** `new Paragraph(text)`: a paragraph holding one plain run. */
  function TextPara(text: string): Node {
    Para(None, [PlainRun(text)], NoSpacing, false, None, false)
  }

  /** The texts of all runs of a tree, in document order (a break-only run
      contributes the empty text). */
  function Texts(n: Node): seq<string>
    decreases n, 1
  {
    match n
    case Run(text, _, _, _, _, _) => [text]
    case Para(_, children, _, _, _, _) => TextsOf(children)
    case Table(rows, _, _, _, _) => TextsOf(rows)
    case Row(cells, _) => TextsOf(cells)
    case Cell(children, _, _, _, _, _) => TextsOf(children)
    case Image(_, _, _, _) => []
  }

  function TextsOf(ns: seq<Node>): seq<string>
    decreases ns, 0
  {
    if ns == [] then [] else Texts(ns[0]) + TextsOf(ns[1..])
  }

  /** Reading the texts of two node lists one after the other is reading the
      texts of their concatenation. */
  lemma {:induction false} TextsOfAppend(a: seq<Node>, b: seq<Node>)
    ensures TextsOf(a + b) == TextsOf(a) + TextsOf(b)
    decreases |a|
  {
    if a == [] {
      assert a + b == b;
    } else {
      assert (a + b)[0] == a[0];
      assert (a + b)[1..] == a[1..] + b;
      TextsOfAppend(a[1..], b);
    }
  }

  lemma TextsOfSingle(n: Node)
    ensures TextsOf([n]) == Texts(n)
  {
    assert [n][1..] == [];
  }

  lemma TextsOfCons(n: Node, ns: seq<Node>)
    ensures TextsOf([n] + ns) == Texts(n) + TextsOf(ns)
  {
    assert ([n] + ns)[0] == n;
    assert ([n] + ns)[1..] == ns;
  }

  lemma TextsOfThree(a: Node, b: Node, c: Node)
    ensures TextsOf([a, b, c]) == Texts(a) + Texts(b) + Texts(c)
  {
    TextsOfSingle(c);
    TextsOfCons(b, [c]);
    TextsOfCons(a, [b, c]);
    assert [b] + [c] == [b, c];
    assert [a] + [b, c] == [a, b, c];
  }

  lemma TextsOfFour(a: Node, b: Node, c: Node, d: Node)
    ensures TextsOf([a, b, c, d]) == Texts(a) + Texts(b) + Texts(c) + Texts(d)
  {
    TextsOfThree(b, c, d);
    TextsOfCons(a, [b, c, d]);
    assert [a] + [b, c, d] == [a, b, c, d];
  }
}
