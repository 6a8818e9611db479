/**
 * The layout composer (invoice-pdf.go): `drawCell`'s attribute rules, the
 * calls `generatePdf` and `writeInvoice` make, in order and fail-fast, and the
 * name of the output file.
 */
module InvoicePdf {
  import opened Wrappers
  import opened InvoiceData
  import opened Invoice
  import opened CellStyles
  import opened Layout

  datatype PdfError =
    | CredentialsUnavailable
    | LicenseRejected
    | LibraryFailure(call: Call)

  // ---------------------------------------------------------------------------
  // drawCell

  function SpanOf(style: CellStyle): nat {
    if style.colSpan > 1 then style.colSpan else 1
  }

  /** The cell `drawCell` leaves behind once the content was set. */
  function StyledCell(content: Content, style: CellStyle): Cell {
    Cell(SpanOf(style),
         Some(content),
         Some(style.hAlign),
         style.background,
         Some(Border(style.borderSide, style.borderStyle, style.borderWidth)),
         style.borderColor,
         if style.indent > 0 then Some(style.indent) else None)
  }

  /**
   * The rules of `drawCell`: alignment and border are always set; background
   * and border colour only when the style has one; indent only when positive;
   * a multi-column cell only for a span above 1.
   */
  lemma DrawCellRules(content: Content, style: CellStyle)
    ensures var cell := StyledCell(content, style);
      && cell.content == Some(content)
      && cell.hAlign == Some(style.hAlign)
      && cell.border == Some(Border(style.borderSide, style.borderStyle, style.borderWidth))
      && (cell.background.Some? <==> style.background.Some?)
      && (cell.background.Some? ==> cell.background == style.background)
      && (cell.borderColor.Some? <==> style.borderColor.Some?)
      && (cell.borderColor.Some? ==> cell.borderColor == style.borderColor)
      && (cell.indent.Some? <==> style.indent > 0)
      && (cell.indent.Some? ==> cell.indent.value == style.indent)
      && (cell.span > 1 <==> style.colSpan > 1)
  {
  }

  /** With the registered styles `drawCell` always takes `NewCell` and never sets an indent. */
  lemma RegisteredStylesSingleColumn(content: Content, name: string)
    requires name in Styles
    ensures StyledCell(content, Styles[name]).span == 1
    ensures StyledCell(content, Styles[name]).indent == None
  {
    NoSpanNoIndent(name);
  }

  /**
   * Adds one cell to `t` and styles it. The cell is added before its content
   * is set, so a failing `SetContent` leaves an unstyled cell behind.
   */
  method DrawCell(c: Creator, t: Table, content: Content, style: CellStyle) returns (ok: bool)
    modifies c, t
    ensures Run(c.State(), ok) == Exec(old(c.State()), [SetCellContent(content)], c.fails)
    ensures t.cols == old(t.cols) && t.widths == old(t.widths)
    ensures t.cells == old(t.cells) + [if ok then StyledCell(content, style) else BlankCell(SpanOf(style))]
  {
    ghost var before := t.cells;
    ghost var cell := BlankCell(SpanOf(style));
    if style.colSpan > 1 {
      t.MultiColCell(style.colSpan);
    } else {
      t.NewCell();
    }
    ok := c.SetContent(t, content);
    if !ok {
      return;
    }
    WithLastAppended(before, cell, cell.(content := Some(content)));
    cell := cell.(content := Some(content));
    t.SetHorizontalAlignment(style.hAlign);
    WithLastAppended(before, cell, cell.(hAlign := Some(style.hAlign)));
    cell := cell.(hAlign := Some(style.hAlign));
    if style.background.Some? {
      t.SetBackgroundColor(style.background.value);
      WithLastAppended(before, cell, cell.(background := style.background));
      cell := cell.(background := style.background);
    }
    t.SetBorder(style.borderSide, style.borderStyle, style.borderWidth);
    ghost var border := Some(Border(style.borderSide, style.borderStyle, style.borderWidth));
    WithLastAppended(before, cell, cell.(border := border));
    cell := cell.(border := border);
    if style.borderColor.Some? {
      t.SetBorderColor(style.borderColor.value);
      WithLastAppended(before, cell, cell.(borderColor := style.borderColor));
      cell := cell.(borderColor := style.borderColor);
    }
    if style.indent > 0 {
      t.SetIndent(style.indent);
      WithLastAppended(before, cell, cell.(indent := Some(style.indent)));
      cell := cell.(indent := Some(style.indent));
    }
    assert cell == StyledCell(content, style);
  }

  // ---------------------------------------------------------------------------
  // The document the composer builds

  /** `newPara`: a paragraph holding exactly the given text. */
  function NewPara(text: string): Content {
    Para(Literal(text))
  }

  const Banner := Rectangle(120, Light)

  const TitleContent := NewPara("Sample Invoice")

  const TitleTable := TableNode(1, 0, [StyledCell(TitleContent, CenteredPlain)])

  function BusinessContent(inv: Invoice): Content {
    NewPara("Business: " + inv.name)
  }

  function AddressContent(inv: Invoice): Content {
    NewPara("Address: " + inv.address)
  }

  function InfoTable(inv: Invoice): Node {
    TableNode(2, 0, [StyledCell(BusinessContent(inv), LeftPlain),
                     StyledCell(AddressContent(inv), LeftPlain)])
  }

  const HeaderContents: seq<Content> :=
    [NewPara(" Title"), NewPara("Quantity"), NewPara("Price"), NewPara("Total")]

  const HeaderStyles: seq<CellStyle> :=
    [HeadingLeft, HeadingCentered, HeadingCentered, HeadingCentered]

  const HeaderCells: seq<Cell> :=
    [StyledCell(HeaderContents[0], HeaderStyles[0]), StyledCell(HeaderContents[1], HeaderStyles[1]),
     StyledCell(HeaderContents[2], HeaderStyles[2]), StyledCell(HeaderContents[3], HeaderStyles[3])]

  /** The four cell contents of an item row: title, quantity, unit price, line total. */
  function RowContents(d: InvoiceData): seq<Content> {
    [NewPara(" " + d.title), Para(Integer(d.quantity as int)),
     Para(Decimal(ReturnItemPrice(d))), Para(Decimal(ReturnItemTotalAmount(d)))]
  }

  const RowStyles: seq<CellStyle> :=
    [LeftHighlighted, CenteredHighlighted,
     CenteredHighlighted, CenteredHighlighted]

  function RowCells(d: InvoiceData): seq<Cell> {
    var cs := RowContents(d);
    [StyledCell(cs[0], RowStyles[0]), StyledCell(cs[1], RowStyles[1]),
     StyledCell(cs[2], RowStyles[2]), StyledCell(cs[3], RowStyles[3])]
  }

  function RowsCells(items: seq<InvoiceData>): seq<Cell> {
    if items == [] then [] else RowCells(items[0]) + RowsCells(items[1..])
  }

  function ItemsTable(inv: Invoice): Node {
    TableNode(4, 4, HeaderCells + RowsCells(inv.items))
  }

  const TotalKeyContent := NewPara("Total Amount:")

  /** The `%v` of the invoice total. */
  function TotalValueContent(inv: Invoice): Content {
    Para(Decimal(TotalAmount(inv)))
  }

  function SummaryTable(inv: Invoice): Node {
    TableNode(2, 2, [StyledCell(TotalKeyContent, LeftPlain),
                     StyledCell(TotalValueContent(inv), ConductVal)])
  }

  /** The 12-column grid whose one 7-column cell holds the summary table. */
  function Grid(inv: Invoice): Node {
    TableNode(12, 0, [BlankCell(7).(content := Some(Nested(SummaryTable(inv))))])
  }

  /** The nodes drawn, in order, when nothing fails. */
  function Document(inv: Invoice): seq<Node> {
    [Banner, TitleTable, InfoTable(inv), ItemsTable(inv), Grid(inv)]
  }

  // ---------------------------------------------------------------------------
  // The output file name

  function LowerChar(ch: char): char {
    if 'A' <= ch <= 'Z' then (ch as int - 'A' as int + 'a' as int) as char else ch
  }

  /** `strings.ToLower`, on ASCII letters: every character is lowered, nothing else changes. */
  function ToLower(s: string): (r: string)
    ensures |r| == |s|
    ensures forall i :: 0 <= i < |s| ==> r[i] == LowerChar(s[i])
  {
    if s == [] then [] else [LowerChar(s[0])] + ToLower(s[1..])
  }

  function FileName(name: string): string {
    ToLower(name) + "_invoice.pdf"
  }

  /** Lowering twice is lowering once. */
  lemma ToLowerIdempotent(s: string)
    ensures ToLower(ToLower(s)) == ToLower(s)
  {
  }

  /** No upper-case ASCII letter is left in the file name. */
  lemma FileNameLowerCase(name: string)
    ensures forall i :: 0 <= i < |FileName(name)| ==> !('A' <= FileName(name)[i] <= 'Z')
    ensures FileName(name)[..|name|] == ToLower(name)
    ensures FileName(name)[|name|..] == "_invoice.pdf"
  {
  }

  /** Names that differ only in the case of ASCII letters give the same file. */
  lemma FileNameCaseInsensitive(a: string, b: string)
    requires |a| == |b|
    requires forall i :: 0 <= i < |a| ==> LowerChar(a[i]) == LowerChar(b[i])
    ensures FileName(a) == FileName(b)
  {
    assert ToLower(a) == ToLower(b);
  }

  /** Lowering is decided character by character. */
  lemma ToLowerMatches(s: string, t: string)
    requires |s| == |t|
    requires forall i :: 0 <= i < |s| ==> LowerChar(s[i]) == t[i]
    ensures ToLower(s) == t
  {
  }

  /** The sample shop's file. */
  lemma SampleFileName()
    ensures FileName("Example Shop1") == "example shop1" + "_invoice.pdf"
  {
    assert |"Example Shop1"| == 13;
    forall i | 0 <= i < 13 ensures LowerChar("Example Shop1"[i]) == "example shop1"[i] {
    }
    ToLowerMatches("Example Shop1", "example shop1");
  }

  // ---------------------------------------------------------------------------
  // The planned library calls
  //
  // Plans are written as right-nested concatenations, first call first, which
  // is the shape in which the composer's proofs consume them.

  function CellCalls(contents: seq<Content>): seq<Call> {
    if contents == [] then [] else [SetCellContent(contents[0])] + CellCalls(contents[1..])
  }

  function RowsCalls(items: seq<InvoiceData>): seq<Call> {
    if items == [] then [] else CellCalls(RowContents(items[0])) + RowsCalls(items[1..])
  }

  predicate OnlyCellCalls(plan: seq<Call>) {
    forall i :: 0 <= i < |plan| ==> plan[i].SetCellContent?
  }

  /** One content-setting call per cell, in order. */
  lemma {:induction false} CellCallsElements(contents: seq<Content>)
    ensures |CellCalls(contents)| == |contents|
    ensures forall i :: 0 <= i < |contents| ==> CellCalls(contents)[i] == SetCellContent(contents[i])
    decreases |contents|
  {
    if contents != [] {
      CellCallsElements(contents[1..]);
    }
  }

  /** Four content-setting calls per item and nothing else. */
  lemma {:induction false} RowsCallsOnlyCells(items: seq<InvoiceData>)
    ensures |RowsCalls(items)| == 4 * |items|
    ensures OnlyCellCalls(RowsCalls(items))
    decreases |items|
  {
    if items != [] {
      CellCallsElements(RowContents(items[0]));
      RowsCallsOnlyCells(items[1..]);
      var head: seq<Call> := CellCalls(RowContents(items[0]));
      var rest: seq<Call> := RowsCalls(items[1..]);
      assert RowsCalls(items) == head + rest;
      forall i | 0 <= i < |head + rest| ensures (head + rest)[i].SetCellContent? {
        if i >= |head| {
          assert (head + rest)[i] == rest[i - |head|];
        }
      }
    }
  }

  /** The invoice header info table (invoice-pdf.go, `writeInvoice`, first part). */
  function InfoPlan(inv: Invoice): seq<Call> {
    [SetCellContent(BusinessContent(inv))] + ([SetCellContent(AddressContent(inv))] +
    [DrawNode(InfoTable(inv))])
  }

  /** The items table: column widths, header, one row per item, then drawing it. */
  function ItemsPlan(inv: Invoice): seq<Call> {
    [SetWidths(4)] + (CellCalls(HeaderContents) + (RowsCalls(inv.items) + [DrawNode(ItemsTable(inv))]))
  }

  /** The total: column widths and two cells of the summary table, the grid cell holding it, the grid. */
  function TotalPlan(inv: Invoice): seq<Call> {
    [SetWidths(2)] + ([SetCellContent(TotalKeyContent)] + ([SetCellContent(TotalValueContent(inv))] +
    ([SetCellContent(Nested(SummaryTable(inv)))] + [DrawNode(Grid(inv))])))
  }

  /** The calls `writeInvoice` makes when none fails. */
  function WriteInvoicePlan(inv: Invoice): seq<Call> {
    InfoPlan(inv) + (ItemsPlan(inv) + TotalPlan(inv))
  }

  /** The banner rectangle, then the one-cell title table. */
  function TitlePlan(): seq<Call> {
    [DrawNode(Banner)] + ([SetCellContent(TitleContent)] + [DrawNode(TitleTable)])
  }

  /** The calls `generatePdf` makes when none fails. */
  function GeneratePlan(inv: Invoice): seq<Call> {
    TitlePlan() + (WriteInvoicePlan(inv) + [WriteFile(FileName(inv.name))])
  }

  /** Four cell contents are four calls. */
  lemma CellCallsFour(cs: seq<Content>)
    requires |cs| == 4
    ensures CellCalls(cs) ==
      [SetCellContent(cs[0])] + ([SetCellContent(cs[1])] + ([SetCellContent(cs[2])] + [SetCellContent(cs[3])]))
  {
    assert cs[3..][1..] == [];
    assert CellCalls(cs[3..]) == [SetCellContent(cs[3])];
    assert cs[2..][1..] == cs[3..];
    assert CellCalls(cs[2..]) == [SetCellContent(cs[2])] + CellCalls(cs[3..]);
    assert cs[1..][1..] == cs[2..];
    assert CellCalls(cs[1..]) == [SetCellContent(cs[1])] + CellCalls(cs[2..]);
  }

  /** The rows from item `i` on: that item's cells, then the later items. */
  lemma RowsStep(items: seq<InvoiceData>, i: nat, more: seq<Call>)
    requires i < |items|
    ensures RowsCalls(items[i..]) + more ==
      CellCalls(RowContents(items[i])) + (RowsCalls(items[i + 1..]) + more)
    ensures RowsCells(items[i..]) == RowCells(items[i]) + RowsCells(items[i + 1..])
  {
    assert items[i..][1..] == items[i + 1..];
  }

  // ---------------------------------------------------------------------------
  // What the plans produce

  /** `generatePdf` makes 18 library calls plus four per item when none fails. */
  lemma GeneratePlanLength(inv: Invoice)
    ensures |GeneratePlan(inv)| == 18 + 4 * |inv.items|
  {
    CellCallsElements(HeaderContents);
    RowsCallsOnlyCells(inv.items);
  }

  /** Everything before the final `WriteToFile`. */
  function PdfBody(inv: Invoice): seq<Call> {
    TitlePlan() + WriteInvoicePlan(inv)
  }

  lemma OnlyCellCallsPlan(plan: seq<Call>)
    requires OnlyCellCalls(plan)
    ensures DrawnNodes(plan) == [] && WritesNoFile(plan)
  {
    NoDrawnNodes(plan);
  }

  lemma InfoPlanDraws(inv: Invoice)
    ensures DrawnNodes(InfoPlan(inv)) == [InfoTable(inv)] && WritesNoFile(InfoPlan(inv))
  {
    PrependCall(DrawNode(InfoTable(inv)), []);
    PrependCall(SetCellContent(AddressContent(inv)), [DrawNode(InfoTable(inv))]);
    PrependCall(SetCellContent(BusinessContent(inv)), [SetCellContent(AddressContent(inv))] + [DrawNode(InfoTable(inv))]);
    assert [DrawNode(InfoTable(inv))] + [] == [DrawNode(InfoTable(inv))];
  }

  lemma ItemsPlanDraws(inv: Invoice)
    ensures DrawnNodes(ItemsPlan(inv)) == [ItemsTable(inv)] && WritesNoFile(ItemsPlan(inv))
  {
    var header := CellCalls(HeaderContents);
    var rows := RowsCalls(inv.items);
    var last := [DrawNode(ItemsTable(inv))];
    CellCallsElements(HeaderContents);
    OnlyCellCallsPlan(header);
    RowsCallsOnlyCells(inv.items);
    OnlyCellCallsPlan(rows);
    PrependCall(DrawNode(ItemsTable(inv)), []);
    assert last + [] == last;
    DrawnNodesAppend(rows, last);
    WritesNoFileAppend(rows, last);
    DrawnNodesAppend(header, rows + last);
    WritesNoFileAppend(header, rows + last);
    PrependCall(SetWidths(4), header + (rows + last));
  }

  lemma TotalPlanDraws(inv: Invoice)
    ensures DrawnNodes(TotalPlan(inv)) == [Grid(inv)] && WritesNoFile(TotalPlan(inv))
  {
    var grid := [DrawNode(Grid(inv))];
    PrependCall(DrawNode(Grid(inv)), []);
    assert grid + [] == grid;
    var summary := [SetCellContent(Nested(SummaryTable(inv)))] + grid;
    PrependCall(SetCellContent(Nested(SummaryTable(inv))), grid);
    var value := [SetCellContent(TotalValueContent(inv))] + summary;
    PrependCall(SetCellContent(TotalValueContent(inv)), summary);
    var key := [SetCellContent(TotalKeyContent)] + value;
    PrependCall(SetCellContent(TotalKeyContent), value);
    PrependCall(SetWidths(2), key);
  }

  /** `writeInvoice` draws the info table, the items table and the grid, and writes no file. */
  lemma WriteInvoicePlanDraws(inv: Invoice)
    ensures DrawnNodes(WriteInvoicePlan(inv)) == [InfoTable(inv), ItemsTable(inv), Grid(inv)]
    ensures WritesNoFile(WriteInvoicePlan(inv))
  {
    InfoPlanDraws(inv);
    ItemsPlanDraws(inv);
    TotalPlanDraws(inv);
    DrawnNodesAppend(ItemsPlan(inv), TotalPlan(inv));
    WritesNoFileAppend(ItemsPlan(inv), TotalPlan(inv));
    DrawnNodesAppend(InfoPlan(inv), ItemsPlan(inv) + TotalPlan(inv));
    WritesNoFileAppend(InfoPlan(inv), ItemsPlan(inv) + TotalPlan(inv));
  }

  /** The plan is its body, which writes no file, followed by the one `WriteToFile`. */
  lemma GeneratePlanEndsWithWrite(inv: Invoice)
    ensures GeneratePlan(inv) == PdfBody(inv) + [WriteFile(FileName(inv.name))]
    ensures WritesNoFile(PdfBody(inv))
    ensures DrawnNodes(PdfBody(inv)) == Document(inv)
  {
    var w := WriteInvoicePlan(inv);
    ConcatAssoc(TitlePlan(), w, [WriteFile(FileName(inv.name))]);
    WriteInvoicePlanDraws(inv);
    TitlePlanDraws();
    DrawnNodesAppend(TitlePlan(), w);
    WritesNoFileAppend(TitlePlan(), w);
  }

  /** The title part draws the banner and the title table, and writes no file. */
  lemma TitlePlanDraws()
    ensures DrawnNodes(TitlePlan()) == [Banner, TitleTable] && WritesNoFile(TitlePlan())
  {
    PrependCall(DrawNode(TitleTable), []);
    PrependCall(SetCellContent(TitleContent), [DrawNode(TitleTable)]);
    PrependCall(DrawNode(Banner), [SetCellContent(TitleContent)] + [DrawNode(TitleTable)]);
    assert [DrawNode(TitleTable)] + [] == [DrawNode(TitleTable)];
  }

  /** The nodes of the plan are the document's five nodes. */
  lemma GeneratePlanDraws(inv: Invoice)
    ensures DrawnNodes(GeneratePlan(inv)) == Document(inv)
  {
    GeneratePlanEndsWithWrite(inv);
    DrawnNodesAppend(PdfBody(inv), [WriteFile(FileName(inv.name))]);
    PrependCall(WriteFile(FileName(inv.name)), []);
    assert [WriteFile(FileName(inv.name))] + [] == [WriteFile(FileName(inv.name))];
  }

  lemma {:induction false} NoDrawnNodes(plan: seq<Call>)
    requires OnlyCellCalls(plan)
    ensures DrawnNodes(plan) == []
    decreases |plan|
  {
    if plan != [] {
      assert plan[0].SetCellContent?;
      NoDrawnNodes(plan[1..]);
    }
  }

  /**
   * The outcome of `generatePdf`: it succeeds exactly when none of its calls
   * fails, and then it has drawn the five document nodes in order and written
   * `FileName(inv.name)`. Whatever fails, what it drew is a prefix of the
   * document (so nothing is drawn after a failure), and a failed run writes
   * no file.
   */
  lemma GenerateOutcome(inv: Invoice, p: Page, fails: nat -> bool)
    ensures var r := Exec(p, GeneratePlan(inv), fails);
      && (r.ok <==> NoFailure(fails, |p.log|, |p.log| + 18 + 4 * |inv.items|))
      && (r.ok ==> r.page.drawn == p.drawn + Document(inv) && r.page.output == Some(FileName(inv.name)))
      && (!r.ok ==> r.page.output == p.output)
      && p.drawn <= r.page.drawn && r.page.drawn[|p.drawn|..] <= Document(inv)
  {
    GeneratePlanLength(inv);
    GeneratePlanDraws(inv);
    ExecFailFast(p, GeneratePlan(inv), fails);
    ExecDrawsPlanNodes(p, GeneratePlan(inv), fails);
    ExecDrawsPrefix(p, GeneratePlan(inv), fails);
    GeneratePlanEndsWithWrite(inv);
    ExecAppend(p, PdfBody(inv), [WriteFile(FileName(inv.name))], fails);
    ExecKeepsOutput(p, PdfBody(inv), fails);
  }

  /** The rows contribute four cells per item, item `i` at positions `4 * i` to `4 * i + 3`. */
  lemma {:induction false} RowsCellsShape(items: seq<InvoiceData>)
    ensures |RowsCells(items)| == 4 * |items|
    ensures forall i :: 0 <= i < |items| ==> RowsCells(items)[4 * i..4 * i + 4] == RowCells(items[i])
  {
    if items != [] {
      RowsCellsShape(items[1..]);
      var rest := RowsCells(items[1..]);
      forall i | 0 <= i < |items| ensures RowsCells(items)[4 * i..4 * i + 4] == RowCells(items[i]) {
        if i > 0 {
          assert RowsCells(items)[4 * i..4 * i + 4] == rest[4 * (i - 1)..4 * (i - 1) + 4];
          assert items[1..][i - 1] == items[i];
        }
      }
    }
  }

  /**
   * The items table: 4 columns, 4 + 4 * n cells, the four header cells first
   * and then the four cells of each item, in the invoice's order.
   */
  lemma ItemsTableCells(inv: Invoice)
    ensures ItemsTable(inv).cols == 4
    ensures |ItemsTable(inv).cells| == 4 + 4 * |inv.items|
    ensures ItemsTable(inv).cells[..4] == HeaderCells
    ensures forall i :: 0 <= i < |inv.items| ==>
      ItemsTable(inv).cells[4 + 4 * i..8 + 4 * i] == RowCells(inv.items[i])
  {
    RowsCellsShape(inv.items);
    var cells := ItemsTable(inv).cells;
    forall i | 0 <= i < |inv.items| ensures cells[4 + 4 * i..8 + 4 * i] == RowCells(inv.items[i]) {
      assert cells[4 + 4 * i..8 + 4 * i] == RowsCells(inv.items)[4 * i..4 * i + 4];
    }
  }

  /** The header reads " Title", "Quantity", "Price", "Total", styled by the registry's heading styles. */
  lemma HeaderCellsContent()
    ensures HeaderCells == [
      StyledCell(Para(Literal(" Title")), Styles["heading-left"]),
      StyledCell(Para(Literal("Quantity")), Styles["heading-centered"]),
      StyledCell(Para(Literal("Price")), Styles["heading-centered"]),
      StyledCell(Para(Literal("Total")), Styles["heading-centered"])]
  {
    ComposerLookups();
  }

  /**
   * An item row: `" " + Title` in the left-highlighted style, then quantity,
   * unit price and line total in the centered-highlighted style; the prices
   * are shown as cents over 100.
   */
  lemma ItemRowContent(d: InvoiceData)
    ensures var cells := RowCells(d);
      && |cells| == 4
      && cells[0] == StyledCell(Para(Literal(" " + d.title)), Styles["left-highlighted"])
      && cells[1] == StyledCell(Para(Integer(d.quantity as int)), Styles["centered-highlighted"])
      && cells[2].content.Some? && cells[2].content.value.Para? && cells[2].content.value.text.Decimal?
      && cells[2].content.value.text.x * 100.0 == d.price as real
      && cells[3].content.Some? && cells[3].content.value.Para? && cells[3].content.value.text.Decimal?
      && cells[3].content.value.text.x * 100.0 == CalculateTotalAmount(d) as real
      && cells[2] == StyledCell(cells[2].content.value, Styles["centered-highlighted"])
      && cells[3] == StyledCell(cells[3].content.value, Styles["centered-highlighted"])
  {
    ComposerLookups();
  }

  /** The info table: two cells, business then address, both in the "left" style. */
  lemma InfoTableCells(inv: Invoice)
    ensures InfoTable(inv) == TableNode(2, 0, [
      StyledCell(Para(Literal("Business: " + inv.name)), Styles["left"]),
      StyledCell(Para(Literal("Address: " + inv.address)), Styles["left"])])
  {
    ComposerLookups();
  }

  /** The summary shows the invoice total (cents over 100) beside its label, in a 7-column grid cell. */
  lemma SummaryContent(inv: Invoice)
    ensures var cells := SummaryTable(inv).cells;
      && |cells| == 2
      && cells[0] == StyledCell(Para(Literal("Total Amount:")), Styles["conduct-key"])
      && cells[1].content.Some? && cells[1].content.value.Para? && cells[1].content.value.text.Decimal?
      && cells[1].content.value.text.x * 100.0 == InvoiceTotalCents(inv) as real
      && cells[1] == StyledCell(cells[1].content.value, Styles["conduct-val"])
    ensures Grid(inv).cols == 12 && |Grid(inv).cells| == 1
    ensures Grid(inv).cells[0].span == 7 && Grid(inv).cells[0].content == Some(Nested(SummaryTable(inv)))
  {
    ComposerLookups();
  }

  /** Reordering the items leaves the summary and its grid unchanged. */
  lemma SummaryOrderIndependent(inv: Invoice, items: seq<InvoiceData>)
    requires multiset(items) == multiset(inv.items)
    ensures SummaryTable(inv.(items := items)) == SummaryTable(inv)
    ensures Grid(inv.(items := items)) == Grid(inv)
  {
    TotalOrderIndependent(inv, items);
  }

  /** Four cells appended one at a time. */
  lemma AppendFour(cells: seq<Cell>, a: Cell, b: Cell, c: Cell, d: Cell)
    ensures (((cells + [a]) + [b]) + [c]) + [d] == cells + [a, b, c, d]
  {
  }

  lemma ConcatAssoc<T>(a: seq<T>, b: seq<T>, c: seq<T>)
    ensures (a + b) + c == a + (b + c)
  {
  }

  // ---------------------------------------------------------------------------
  // The composer

  /**
   * `GenerateInvoicePdf`: the licence key, as read from the environment
   * (`None` when it could not be read), must be accepted before a fresh
   * creator runs `generatePdf`. Returns the error and what the creator did.
   */
  method GenerateInvoicePdf(inv: Invoice, key: Option<string>, licenseAccepts: string -> bool,
                            fails: nat -> bool) returns (err: Option<PdfError>, page: Page)
    ensures key.None? ==> err == Some(CredentialsUnavailable) && page == EmptyPage
    ensures key.Some? && !licenseAccepts(key.value) ==> err == Some(LicenseRejected) && page == EmptyPage
    ensures key.Some? && licenseAccepts(key.value) ==>
      Run(page, err.None?) == Exec(EmptyPage, GeneratePlan(inv), fails)
    ensures err.None? ==> page.drawn == Document(inv) && page.output == Some(FileName(inv.name))
    ensures err.Some? ==> page.output == None
  {
    if key.None? {
      return Some(CredentialsUnavailable), EmptyPage;
    }
    if !licenseAccepts(key.value) {
      return Some(LicenseRejected), EmptyPage;
    }
    var c := new Creator(fails);
    var client := new Client(c);
    ComposerLookups();
    err := client.GeneratePdf(inv);
    page := c.State();
    GenerateOutcome(inv, EmptyPage, fails);
  }

  class Client {
    const creator: Creator
    /** The style registry the composer looks names up in. */
    const styles: map<string, CellStyle>

    constructor (creator: Creator)
      ensures this.creator == creator && styles == Styles
    {
      this.creator := creator;
      styles := Styles;
    }

    /** Banner, title table, the invoice tables, then the file; stops at the first failure. */
    method GeneratePdf(inv: Invoice) returns (err: Option<PdfError>)
      requires ResolvesComposerNames(styles)
      modifies creator
      ensures Run(creator.State(), err.None?) == Exec(old(creator.State()), GeneratePlan(inv), creator.fails)
      ensures err.Some? ==> |creator.log| > 0 && err.value == LibraryFailure(creator.log[|creator.log| - 1])
    {
      var c := creator;
      ghost var goal := Exec(c.State(), GeneratePlan(inv), c.fails);

      ghost var p := c.State();
      var ok := DrawTitle();
      Advance(goal, p, TitlePlan(), WriteInvoicePlan(inv) + [WriteFile(FileName(inv.name))],
        Run(c.State(), ok), c.fails);
      if !ok {
        ExecFailureLogged(p, TitlePlan(), c.fails);
        return Some(LibraryFailure(c.log[|c.log| - 1]));
      }

      p := c.State();
      ok := WriteInvoice(inv);
      Advance(goal, p, WriteInvoicePlan(inv), [WriteFile(FileName(inv.name))], Run(c.State(), ok), c.fails);
      if !ok {
        ExecFailureLogged(p, WriteInvoicePlan(inv), c.fails);
        return Some(LibraryFailure(c.log[|c.log| - 1]));
      }

      p := c.State();
      ok := c.WriteToFile(ToLower(inv.name) + "_invoice.pdf");
      if !ok {
        ExecFailureLogged(p, [WriteFile(FileName(inv.name))], c.fails);
        return Some(LibraryFailure(c.log[|c.log| - 1]));
      }
      return None;
    }

    /** The banner rectangle, then the title table with its one centred cell. */
    method DrawTitle() returns (ok: bool)
      requires ResolvesComposerNames(styles)
      modifies creator
      ensures Run(creator.State(), ok) == Exec(old(creator.State()), TitlePlan(), creator.fails)
    {
      var c := creator;
      ghost var goal := Exec(c.State(), TitlePlan(), c.fails);
      ghost var p := c.State();
      ok := c.Draw(Banner);
      Advance(goal, p, [DrawNode(Banner)], [SetCellContent(TitleContent)] + [DrawNode(TitleTable)],
        Run(c.State(), ok), c.fails);
      if !ok {
        return;
      }
      var table := new Table(1);
      p := c.State();
      ok := DrawCell(c, table, NewPara("Sample Invoice"), styles["centered"]);
      Advance(goal, p, [SetCellContent(TitleContent)], [DrawNode(TitleTable)], Run(c.State(), ok), c.fails);
      if !ok {
        return;
      }
      assert table.Snapshot() == TitleTable;
      ok := c.Draw(table.Snapshot());
    }

    /** The info table, the items table and the total; stops at the first failure. */
    method WriteInvoice(inv: Invoice) returns (ok: bool)
      requires ResolvesComposerNames(styles)
      modifies creator
      ensures Run(creator.State(), ok) == Exec(old(creator.State()), WriteInvoicePlan(inv), creator.fails)
    {
      var c := creator;
      ghost var goal := Exec(c.State(), WriteInvoicePlan(inv), c.fails);
      ghost var p := c.State();
      ok := DrawInfoTable(inv);
      Advance(goal, p, InfoPlan(inv), ItemsPlan(inv) + TotalPlan(inv), Run(c.State(), ok), c.fails);
      if !ok {
        return;
      }
      p := c.State();
      ok := DrawItemsTable(inv);
      Advance(goal, p, ItemsPlan(inv), TotalPlan(inv), Run(c.State(), ok), c.fails);
      if !ok {
        return;
      }
      ok := DrawTotal(inv);
    }

    /** Invoice header info table: business name and address, side by side. */
    method DrawInfoTable(inv: Invoice) returns (ok: bool)
      requires ResolvesComposerNames(styles)
      modifies creator
      ensures Run(creator.State(), ok) == Exec(old(creator.State()), InfoPlan(inv), creator.fails)
    {
      var c := creator;
      ghost var goal := Exec(c.State(), InfoPlan(inv), c.fails);
      var table := new Table(2);
      ghost var p := c.State();
      ok := DrawCell(c, table, NewPara("Business: " + inv.name), styles["left"]);
      Advance(goal, p, [SetCellContent(BusinessContent(inv))],
        [SetCellContent(AddressContent(inv))] + [DrawNode(InfoTable(inv))], Run(c.State(), ok), c.fails);
      if !ok {
        return;
      }
      p := c.State();
      ok := DrawCell(c, table, NewPara("Address: " + inv.address), styles["left"]);
      Advance(goal, p, [SetCellContent(AddressContent(inv))], [DrawNode(InfoTable(inv))],
        Run(c.State(), ok), c.fails);
      if !ok {
        return;
      }
      assert table.Snapshot() == InfoTable(inv);
      ok := c.Draw(table.Snapshot());
    }

    /** Invoice items table: a header row, then one row per item, in the invoice's order. */
    method DrawItemsTable(inv: Invoice) returns (ok: bool)
      requires ResolvesComposerNames(styles)
      modifies creator
      ensures Run(creator.State(), ok) == Exec(old(creator.State()), ItemsPlan(inv), creator.fails)
    {
      var c := creator;
      ghost var goal := Exec(c.State(), ItemsPlan(inv), c.fails);
      var table := new Table(4);
      ghost var p := c.State();
      ok := c.SetColumnWidths(table, 4);
      Advance(goal, p, [SetWidths(4)], CellCalls(HeaderContents) + (RowsCalls(inv.items) + [DrawNode(ItemsTable(inv))]),
        Run(c.State(), ok), c.fails);
      if !ok {
        return;
      }

      p := c.State();
      ok := DrawHeader(table);
      assert inv.items[0..] == inv.items;
      Advance(goal, p, CellCalls(HeaderContents), RowsCalls(inv.items[0..]) + [DrawNode(ItemsTable(inv))],
        Run(c.State(), ok), c.fails);
      if !ok {
        return;
      }

      for i := 0 to |inv.items|
        invariant goal == Exec(c.State(), RowsCalls(inv.items[i..]) + [DrawNode(ItemsTable(inv))], c.fails)
        invariant table.cols == 4 && table.widths == 4
        invariant table.cells + RowsCells(inv.items[i..]) == HeaderCells + RowsCells(inv.items)
      {
        RowsStep(inv.items, i, [DrawNode(ItemsTable(inv))]);
        p := c.State();
        ghost var before := table.cells;
        ok := DrawItemRow(table, inv.items[i]);
        Advance(goal, p, CellCalls(RowContents(inv.items[i])), RowsCalls(inv.items[i + 1..]) + [DrawNode(ItemsTable(inv))],
          Run(c.State(), ok), c.fails);
        if !ok {
          return;
        }
        ConcatAssoc(before, RowCells(inv.items[i]), RowsCells(inv.items[i + 1..]));
      }
      assert inv.items[|inv.items|..] == [];
      assert table.Snapshot() == ItemsTable(inv);
      ok := c.Draw(table.Snapshot());
    }

    /** The four header cells of the items table. */
    method DrawHeader(t: Table) returns (ok: bool)
      requires ResolvesComposerNames(styles)
      modifies creator, t
      ensures Run(creator.State(), ok) == Exec(old(creator.State()), CellCalls(HeaderContents), creator.fails)
      ensures t.cols == old(t.cols) && t.widths == old(t.widths)
      ensures ok ==> t.cells == old(t.cells) + HeaderCells
    {
      var c := creator;
      CellCallsFour(HeaderContents);
      ghost var goal := Exec(c.State(), CellCalls(HeaderContents), c.fails);
      ghost var before := t.cells;
      ghost var p := c.State();
      ok := DrawCell(c, t, NewPara(" Title"), styles["heading-left"]);
      Advance(goal, p, [SetCellContent(HeaderContents[0])], [SetCellContent(HeaderContents[1])] +
        ([SetCellContent(HeaderContents[2])] + [SetCellContent(HeaderContents[3])]), Run(c.State(), ok), c.fails);
      if !ok {
        return;
      }
      p := c.State();
      ok := DrawCell(c, t, NewPara("Quantity"), styles["heading-centered"]);
      Advance(goal, p, [SetCellContent(HeaderContents[1])],
        [SetCellContent(HeaderContents[2])] + [SetCellContent(HeaderContents[3])], Run(c.State(), ok), c.fails);
      if !ok {
        return;
      }
      p := c.State();
      ok := DrawCell(c, t, NewPara("Price"), styles["heading-centered"]);
      Advance(goal, p, [SetCellContent(HeaderContents[2])], [SetCellContent(HeaderContents[3])],
        Run(c.State(), ok), c.fails);
      if !ok {
        return;
      }
      ok := DrawCell(c, t, NewPara("Total"), styles["heading-centered"]);
      AppendFour(before, StyledCell(HeaderContents[0], HeadingLeft), StyledCell(HeaderContents[1], HeadingCentered),
        StyledCell(HeaderContents[2], HeadingCentered), StyledCell(HeaderContents[3], HeadingCentered));
    }

    /** One item row: title, quantity, unit price and line total, each formatted with `%v`. */
    method DrawItemRow(t: Table, datum: InvoiceData) returns (ok: bool)
      requires ResolvesComposerNames(styles)
      modifies creator, t
      ensures Run(creator.State(), ok) == Exec(old(creator.State()), CellCalls(RowContents(datum)), creator.fails)
      ensures t.cols == old(t.cols) && t.widths == old(t.widths)
      ensures ok ==> t.cells == old(t.cells) + RowCells(datum)
    {
      var c := creator;
      ghost var cs := RowContents(datum);
      CellCallsFour(cs);
      ghost var goal := Exec(c.State(), CellCalls(cs), c.fails);
      ghost var before := t.cells;
      ghost var p := c.State();
      ok := DrawCell(c, t, NewPara(" " + datum.title), styles["left-highlighted"]);
      Advance(goal, p, [SetCellContent(cs[0])], [SetCellContent(cs[1])] +
        ([SetCellContent(cs[2])] + [SetCellContent(cs[3])]), Run(c.State(), ok), c.fails);
      if !ok {
        return;
      }
      p := c.State();
      ok := DrawCell(c, t, Para(Integer(datum.quantity as int)), styles["centered-highlighted"]);
      Advance(goal, p, [SetCellContent(cs[1])], [SetCellContent(cs[2])] + [SetCellContent(cs[3])],
        Run(c.State(), ok), c.fails);
      if !ok {
        return;
      }
      p := c.State();
      ok := DrawCell(c, t, Para(Decimal(ReturnItemPrice(datum))), styles["centered-highlighted"]);
      Advance(goal, p, [SetCellContent(cs[2])], [SetCellContent(cs[3])], Run(c.State(), ok), c.fails);
      if !ok {
        return;
      }
      ok := DrawCell(c, t, Para(Decimal(ReturnItemTotalAmount(datum))), styles["centered-highlighted"]);
      AppendFour(before, StyledCell(cs[0], LeftHighlighted), StyledCell(cs[1], CenteredHighlighted),
        StyledCell(cs[2], CenteredHighlighted), StyledCell(cs[3], CenteredHighlighted));
    }

    /** The summary table's two cells: the label, then the grand total computed on the spot. */
    method DrawSummaryCells(t: Table, inv: Invoice) returns (ok: bool)
      requires ResolvesComposerNames(styles)
      modifies creator, t
      ensures Run(creator.State(), ok) == Exec(old(creator.State()),
        [SetCellContent(TotalKeyContent)] + [SetCellContent(TotalValueContent(inv))], creator.fails)
      ensures t.cols == old(t.cols) && t.widths == old(t.widths)
      ensures ok ==> t.cells == old(t.cells) + SummaryTable(inv).cells
    {
      var c := creator;
      ghost var goal := Exec(c.State(), [SetCellContent(TotalKeyContent)] + [SetCellContent(TotalValueContent(inv))], c.fails);
      ghost var before := t.cells;
      ghost var p := c.State();
      ok := DrawCell(c, t, NewPara("Total Amount:"), styles["conduct-key"]);
      Advance(goal, p, [SetCellContent(TotalKeyContent)], [SetCellContent(TotalValueContent(inv))],
        Run(c.State(), ok), c.fails);
      if !ok {
        return;
      }
      var total := CalculateInvoiceTotalAmount(inv);
      ok := DrawCell(c, t, Para(Decimal(total)), styles["conduct-val"]);
      assert [StyledCell(TotalKeyContent, LeftPlain)] + [StyledCell(TotalValueContent(inv), ConductVal)]
        == SummaryTable(inv).cells;
    }

    /** The summary: a 2-column table nested in a 7-column cell of a 12-column grid. */
    method DrawTotal(inv: Invoice) returns (ok: bool)
      requires ResolvesComposerNames(styles)
      modifies creator
      ensures Run(creator.State(), ok) == Exec(old(creator.State()), TotalPlan(inv), creator.fails)
    {
      var c := creator;
      ghost var goal := Exec(c.State(), TotalPlan(inv), c.fails);
      var grid := new Table(12);
      var table := new Table(2);
      ghost var p := c.State();
      ok := c.SetColumnWidths(table, 2);
      ghost var cells := [SetCellContent(TotalKeyContent)] + [SetCellContent(TotalValueContent(inv))];
      ghost var rest := [SetCellContent(Nested(SummaryTable(inv)))] + [DrawNode(Grid(inv))];
      ConcatAssoc([SetCellContent(TotalKeyContent)], [SetCellContent(TotalValueContent(inv))], rest);
      assert TotalPlan(inv) == [SetWidths(2)] + (cells + rest);
      Advance(goal, p, [SetWidths(2)], cells + rest, Run(c.State(), ok), c.fails);
      if !ok {
        return;
      }
      p := c.State();
      ok := DrawSummaryCells(table, inv);
      Advance(goal, p, cells, rest, Run(c.State(), ok), c.fails);
      if !ok {
        return;
      }
      grid.MultiColCell(7);
      assert table.Snapshot() == SummaryTable(inv);
      p := c.State();
      ok := c.SetContent(grid, Nested(table.Snapshot()));
      Advance(goal, p, [SetCellContent(Nested(SummaryTable(inv)))], [DrawNode(Grid(inv))],
        Run(c.State(), ok), c.fails);
      if !ok {
        return;
      }
      assert grid.Snapshot() == Grid(inv);
      ok := c.Draw(grid.Snapshot());
    }
  }
}
