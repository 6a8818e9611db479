# Invoice PDF generator — a Dafny model

This project models the core of a small Go program that builds an invoice and
lays it out as a PDF. The core has three parts:

- **Line items** (`internal/invoice-data.go`). An `InvoiceData` holds a
  quantity and a unit price in cents, both `int64`. `NewInvoiceData` takes a
  dynamically typed price, scales it to cents, and refuses any unsupported
  type. The line total is quantity times price.
- **The invoice** (`internal/invoice.go`). An `Invoice` holds a business name,
  an address and the ordered items. `CalculateInvoiceTotalAmount` adds the
  line totals in an `int64` accumulator and divides by 100 once, at the end.
- **The layout composer** (`internal/invoice-pdf.go`). It has a constant
  registry that maps style names to cell styles, and `drawCell`, which turns
  a style into cell attributes. `generatePdf` and `writeInvoice` draw, in a
  fixed order, a banner, a title table, an info table, an items table, and a
  grid that holds the total. They stop at the first failing library call. As
  its last step, `generatePdf` writes the file `lower(Name) + "_invoice.pdf"`.

Files and their modules:

| file | module | what it holds |
|---|---|---|
| `wrappers.dfy` | `Wrappers` | `Option`, `Result` |
| `int64.dfy` | `Int64` | Go's `int64`; two's-complement wrap-around written out as `Wrap` |
| `invoice_data.dfy` | `InvoiceData` | the line item, its total, and the price type switch |
| `invoice.dfy` | `Invoice` | the invoice; the total as an imperative loop, proved against the recursive sum `SumCents` |
| `cell_styles.dfy` | `CellStyles` | the `cellStyle` record and the `cellStyles` registry |
| `layout.dfy` | `Layout` | the PDF library seen from the composer: tables (objects whose cells are added in place), a `Creator` whose calls may fail, and the reference semantics `Exec` |
| `invoice_pdf.dfy` | `InvoicePdf` | `drawCell`, the document it builds, the planned calls, the file name, and the composer (`GenerateInvoicePdf` and the class `Client`) |

Modelling choices:

- **Integer overflow.** Go's `int64` arithmetic wraps silently. The model
  writes this out: `Int64.Wrap(x)` is the `int64` that an expression of exact
  value `x` evaluates to. Contracts state two things:
  - the result has the same bit pattern as the exact value (congruent modulo
    2^64);
  - when the exact value is in range, the result equals it.

  The source itself places no range requirement on callers.
- **Library failures.** Whether the library's n-th fallible call fails is
  decided by an oracle `fails: nat -> bool`, which the `Creator` is
  constructed with. The oracle ranges over which calls fail, so what is
  proved for all oracles holds whichever calls fail. What a call does is fixed
  by the model: a call that succeeds has exactly its effect, and a call that
  fails has none (see "## Left out").
- **Reference semantics.** `Layout.Exec(page, plan, fails)` runs a planned
  list of calls with fail-fast error handling. Each composer method is proved
  to do exactly what `Exec` does with that method's plan. The lemmas about
  the plans then give the promised properties: which nodes are drawn, in
  which order, after which failures, and that no file is written after a
  failure.
- **Method structure.** `writeInvoice` is split into one method per commented
  section: `DrawInfoTable`, `DrawItemsTable` (which uses `DrawHeader` and
  `DrawItemRow`, one row at a time in the items loop), and `DrawTotal` (which
  uses `DrawSummaryCells`). The banner and the title table of `generatePdf`
  are `DrawTitle`. The calls and their order are those of the Go functions.
- **Display values.** Values that Go shows as `float64` (cents / 100) are
  exact `real`s here. The cell text `%v` of a number is the value itself,
  held in `Text.Integer` or `Text.Decimal`.

The `int64` branch of `NewInvoiceData` multiplies by 100 like the `int`
branch (`internal/invoice-data.go:32-33`). An `int64` price is whole units,
not cents, and the model scales both integer variants.

## Model

| member | source | states |
|---|---|---|
| Int64.Wrap | internal/invoice-data.go:13 | the wrapped value has the exact value's 64-bit pattern, and equals it when it is in range |
| Int64.WrapAdd | internal/invoice.go:21 | adding to an already-wrapped accumulator and wrapping again is wrapping the exact sum |
| Int64.WrapCongruent | internal/invoice.go:21 | values with the same bit pattern wrap to the same `int64` |
| InvoiceData.CalculateTotalAmount | internal/invoice-data.go:12-15 | the line total is `Quantity * Price` with no scaling: equal to the product when it fits in 64 bits, and with the product's bit pattern always |
| InvoiceData.ReturnItemTotalAmount | internal/invoice-data.go:17-21 | the displayed line total is exactly `CalculateTotalAmount()` cents over 100 |
| InvoiceData.ReturnItemPrice | internal/invoice-data.go:23-26 | the displayed unit price is exactly `Price` cents over 100 |
| InvoiceData.ScaledPrice | internal/invoice-data.go:31-39 | the type switch's conversion: an `int64` or `int` price `v` becomes `v * 100` (wrapped as Go wraps, exact when in range); a float price becomes its converted value |
| InvoiceData.NewInvoiceData | internal/invoice-data.go:28-49 | fails if and only if the price type is unsupported, and then with "type not permitted"; on success, title and quantity are stored as given and `TotalAmount` is 0; an `int64` or `int` price `v` becomes `v * 100` (wrapped as Go wraps); a float price becomes its converted value |
| Invoice.CreateInvoice | internal/invoice.go:9-15 | name, address and the item sequence are stored unchanged and in order |
| Invoice.SumCents | internal/invoice.go:19-22 | definition: the exact integer sum of the line totals, item by item in order, with no wrap-around; the reference the loop is proved against |
| Invoice.InvoiceTotalCents | internal/invoice.go:18-22 | the accumulator's final value has the bit pattern of the exact integer sum of the line totals, and equals that sum when it is in range |
| Invoice.TotalAmount | internal/invoice.go:24-26 | the grand total is the accumulated cents divided by 100 once, after the summing |
| Invoice.CalculateInvoiceTotalAmount | internal/invoice.go:17-27 | the loop, one item per step in order, returns the grand total: the wrapped cents over 100, and exactly the sum of the line totals over 100 when no overflow occurs |
| Invoice.TotalAmountExact | internal/invoice.go:17-27 | without overflow, the grand total times 100 is the exact sum of the line totals |
| Invoice.SumCentsAppend | internal/invoice.go:19-22 | one more item adds exactly its line total to the sum |
| Invoice.SumCentsConcat | internal/invoice.go:19-22 | the sum over two concatenated lists is the sum of their sums |
| Invoice.SumCentsRemove | internal/invoice.go:19-22 | taking any one item out of the list takes exactly its line total out of the sum |
| Invoice.SumCentsPermutation | internal/invoice.go:19-22 | two lists holding the same items (as multisets) have the same sum |
| Invoice.TotalOrderIndependent | internal/invoice.go:17-27 | reordering an invoice's items changes neither the cents total nor the displayed total |
| Invoice.AppendItemTotal | internal/invoice.go:19-22 | appending an item advances the accumulator by one wrapped addition of its line total, which is the exact addition when no overflow occurs |
| Invoice.EmptyInvoiceTotal | internal/invoice.go:17-27 | an invoice without items totals 0 cents and 0.0 |
| Invoice.SampleInvoiceTotal | main.go:10-22 | the sample invoice, with items of 300050 and 20070 cents, quantity 1 each, totals 320120 cents, shown as 3201.2 |
| CellStyles.Styles | internal/invoice-pdf.go:26-85 | definition: the eleven registry entries, each with the alignment, background, border side, style, width and colour of its Go literal; fields a literal leaves out keep their zero value |
| CellStyles.ComposerLookups | internal/invoice-pdf.go:26-85 | each of the eight names the composer looks up is a key of the registry, with the style the document uses |
| CellStyles.ComposerNamesResolved | internal/invoice-pdf.go:123 | every name of the composer's name set is among the names a registry resolving the composer's lookups holds |
| CellStyles.ComposerNamesOnly | internal/invoice-pdf.go:123 | conversely, whether a registry resolves the composer's lookups depends on no name outside the composer's name set |
| CellStyles.Resolve | internal/invoice-pdf.go:26-85 | the partial lookup succeeds exactly for registered names, and then returns the registered style |
| CellStyles.GoLookup | internal/invoice-pdf.go:123 | Go's map lookup returns the registered style for a known name and the zero style for an unknown one |
| CellStyles.ComposerNamesRegistered | internal/invoice-pdf.go:26-85 | every name in the composer's set is registered, so Go's lookup agrees with the partial lookup there |
| CellStyles.UnknownStyleRefused | internal/invoice-pdf.go:26-85 | an unregistered name is refused by the partial lookup, while Go's lookup silently gives the zero style |
| CellStyles.NoSpanNoIndent | internal/invoice-pdf.go:26-85 | no registered style spans more than one column or has a positive indent |
| CellStyles.BoxedStyles | internal/invoice-pdf.go:27-58 | the heading and highlighted styles have a single white border on all sides, of width 6, and a filled background: dark for headings, light for highlighted |
| CellStyles.ConductValStyle | internal/invoice-pdf.go:77-84 | "conduct-val" is centred, light-filled, with a single white border on all sides of width 3 |
| CellStyles.PlainStyles | internal/invoice-pdf.go:59-76 | the six plain styles set an alignment and nothing else |
| Layout.Attempt | internal/invoice-pdf.go:113-116 | definition: one fallible library call is always attempted (logged); a draw adds its node and a file write sets the output only when the call succeeds |
| Layout.Exec | internal/invoice-pdf.go:109-142 | definition: the chain of `if err != nil { return err }` checks: runs the planned calls in order and stops with failure right after the first call that fails |
| Layout.ExecAppend | internal/invoice-pdf.go:109-142 | running two plans in a row continues with the second only if the first succeeded |
| Layout.ExecFailFast | internal/invoice-pdf.go:176-274 | a run attempts a prefix of its plan in order; it succeeds exactly when none of the plan's calls fails; a failing run stops right after the first failing call, and every call before it succeeded |
| Layout.ExecFailureLogged | internal/invoice-pdf.go:109-142 | a failed run has attempted at least one call, so the error names the call that failed |
| Layout.ExecDrawsPlanNodes | internal/invoice-pdf.go:176-274 | a successful run draws exactly the plan's nodes, in plan order |
| Layout.ExecDrawsPrefix | internal/invoice-pdf.go:176-274 | whatever fails, a run only adds to the drawn nodes, and what it adds is a prefix of the plan's nodes |
| Layout.ExecKeepsOutput | internal/invoice-pdf.go:176-274 | a plan without a file write leaves the output unchanged, whatever fails |
| Layout.Table.constructor | internal/invoice-pdf.go:121 | a new table has its column count, no column widths and no cells |
| Layout.Table.NewCell | internal/invoice-pdf.go:156 | appends one blank single-column cell and changes nothing else |
| Layout.Table.MultiColCell | internal/invoice-pdf.go:154 | appends one blank cell of the given span and changes nothing else |
| Layout.Table.SetHorizontalAlignment | internal/invoice-pdf.go:162 | sets the newest cell's alignment, leaving every other cell and attribute unchanged |
| Layout.Table.SetBackgroundColor | internal/invoice-pdf.go:164 | sets the newest cell's background, leaving everything else unchanged |
| Layout.Table.SetBorder | internal/invoice-pdf.go:166 | sets the newest cell's border side, style and width, leaving everything else unchanged |
| Layout.Table.SetBorderColor | internal/invoice-pdf.go:168 | sets the newest cell's border colour, leaving everything else unchanged |
| Layout.Table.SetIndent | internal/invoice-pdf.go:171 | sets the newest cell's indent, leaving everything else unchanged |
| Layout.Creator.constructor | internal/invoice-pdf.go:98 | a fresh creator has attempted nothing, drawn nothing and written no file |
| Layout.Creator.Perform | internal/invoice-pdf.go:113 | one fallible library call is one step of `Exec`: logged always; it takes effect only on success |
| Layout.Creator.Draw | internal/invoice-pdf.go:113 | drawing a node is one step of `Exec` with that node |
| Layout.Creator.WriteToFile | internal/invoice-pdf.go:137 | writing the file is one step of `Exec`; on success the output is that name |
| Layout.Creator.SetContent | internal/invoice-pdf.go:158 | setting a cell's content is one step of `Exec`; on success the newest cell holds the content, and on failure the table is unchanged |
| Layout.Creator.SetColumnWidths | internal/invoice-pdf.go:197 | setting the column widths is one step of `Exec`; on success the table records the widths, and the cells are untouched |
| InvoicePdf.StyledCell | internal/invoice-pdf.go:151-174 | definition: the cell `drawCell` leaves when setting the content succeeded: the content, the style's alignment and border, its background and border colour when set, its indent when positive, and its span when above 1 |
| InvoicePdf.DrawCellRules | internal/invoice-pdf.go:151-174 | a styled cell always gets the content, alignment and border; it gets the background and border colour exactly when the style has them, the indent exactly when the style's indent is positive, and several columns exactly when the style's span is above 1 |
| InvoicePdf.RegisteredStylesSingleColumn | internal/invoice-pdf.go:153-157 | with any registered style, the cell spans one column and has no indent |
| InvoicePdf.DrawCell | internal/invoice-pdf.go:151-174 | makes exactly one fallible call (`SetContent`) and appends exactly one cell: the styled cell on success, and a blank, unstyled cell when setting the content failed |
| InvoicePdf.ToLower | internal/invoice-pdf.go:137 | lower-casing keeps the length and lowers each character on its own |
| InvoicePdf.FileName | internal/invoice-pdf.go:137 | definition: the lowered business name followed by "_invoice.pdf" |
| InvoicePdf.ToLowerMatches | internal/invoice-pdf.go:137 | a string lowers to `t` when it has `t`'s length and each of its characters lowers to `t`'s character at that position |
| InvoicePdf.ToLowerIdempotent | internal/invoice-pdf.go:137 | lowering twice is lowering once |
| InvoicePdf.FileNameLowerCase | internal/invoice-pdf.go:137 | the file name is the lowered business name followed by "_invoice.pdf", and it holds no upper-case ASCII letter |
| InvoicePdf.FileNameCaseInsensitive | internal/invoice-pdf.go:137 | names that differ only in letter case give the same file name |
| InvoicePdf.SampleFileName | main.go:22 | the sample business "Example Shop1" is written to "example shop1" + "_invoice.pdf" |
| InvoicePdf.Banner | internal/invoice-pdf.go:110-112 | definition: the banner rectangle, 120 high, filled with the light colour "#dde4e5" |
| InvoicePdf.TitleTable | internal/invoice-pdf.go:121-127 | definition: a one-column table, no column widths, whose one cell is "Sample Invoice" in the "centered" style |
| InvoicePdf.InfoTable | internal/invoice-pdf.go:179-189 | definition: a two-column table, no column widths, with the cells "Business: " + Name and "Address: " + Address in the "left" style |
| InvoicePdf.NewPara | internal/invoice-pdf.go:144-149 | definition: a paragraph holding exactly the given text; the text style and the disabled wrapping are left out |
| InvoicePdf.RowContents | internal/invoice-pdf.go:224-236 | definition: an item's four `%v` contents, in order: `" " + Title`, the quantity, the unit price and the line total as cents over 100 |
| InvoicePdf.RowCells | internal/invoice-pdf.go:224-239 | definition: an item's four cells: `" " + Title` in "left-highlighted", then quantity, unit price and line total in "centered-highlighted" |
| InvoicePdf.ItemsTable | internal/invoice-pdf.go:195-241 | definition: a four-column table with four column widths set, holding the header cells followed by every item's row cells, in item order |
| InvoicePdf.SummaryTable | internal/invoice-pdf.go:252-264 | definition: a two-column table with two widths set, holding "Total Amount:" in "conduct-key" and the invoice total in "conduct-val" |
| InvoicePdf.TotalValueContent | internal/invoice-pdf.go:261 | definition: the `%v` of the invoice total, the accumulated cents over 100 |
| InvoicePdf.Grid | internal/invoice-pdf.go:248-269 | definition: a twelve-column grid, no widths, whose one 7-column cell holds the summary table |
| InvoicePdf.Document | internal/invoice-pdf.go:109-142 | definition: the five nodes drawn when nothing fails: banner, title table, info table, items table, grid |
| InvoicePdf.TitlePlan | internal/invoice-pdf.go:110-130 | definition: the calls of `generatePdf`'s first part: draw the banner, set the title cell's content, draw the title table |
| InvoicePdf.InfoPlan | internal/invoice-pdf.go:178-192 | definition: set the business cell, set the address cell, draw the info table |
| InvoicePdf.ItemsPlan | internal/invoice-pdf.go:194-244 | definition: set the column widths, four header cell calls, four cell calls per item in order, draw the items table |
| InvoicePdf.TotalPlan | internal/invoice-pdf.go:246-273 | definition: set the summary's widths, its two cell calls, set the grid cell's content to the summary, draw the grid |
| InvoicePdf.WriteInvoicePlan | internal/invoice-pdf.go:176-274 | definition: the info, items and total plans, in that order |
| InvoicePdf.GeneratePlan | internal/invoice-pdf.go:109-142 | definition: the title plan, the `writeInvoice` plan, then writing the file named `FileName(Name)` |
| InvoicePdf.CellCallsElements | internal/invoice-pdf.go:206-222 | a row of contents becomes exactly one content-setting call per cell, in order |
| InvoicePdf.RowsCallsOnlyCells | internal/invoice-pdf.go:223-240 | the items loop makes four content-setting calls per item, and nothing else |
| InvoicePdf.GeneratePlanLength | internal/invoice-pdf.go:109-142 | when nothing fails, `generatePdf` makes 18 library calls plus 4 per item |
| InvoicePdf.TitlePlanDraws | internal/invoice-pdf.go:110-130 | the first section draws the banner and then the title table, and writes no file |
| InvoicePdf.InfoPlanDraws | internal/invoice-pdf.go:178-192 | the info section draws the info table, and nothing else, and writes no file |
| InvoicePdf.ItemsPlanDraws | internal/invoice-pdf.go:194-244 | the items section draws the items table, and nothing else, and writes no file |
| InvoicePdf.TotalPlanDraws | internal/invoice-pdf.go:246-273 | the total section draws the grid, and nothing else, and writes no file |
| InvoicePdf.WriteInvoicePlanDraws | internal/invoice-pdf.go:176-274 | `writeInvoice` draws the info table, the items table and the grid, in that order, and writes no file |
| InvoicePdf.GeneratePlanEndsWithWrite | internal/invoice-pdf.go:109-142 | the file write is the last call of `generatePdf`; everything before it draws the five document nodes and writes no file |
| InvoicePdf.GeneratePlanDraws | internal/invoice-pdf.go:109-142 | `generatePdf` draws the five document nodes: banner, title, info, items, grid |
| InvoicePdf.GenerateOutcome | internal/invoice-pdf.go:109-142 | `generatePdf` succeeds exactly when none of its 18 + 4n calls fails, and then it has drawn the five nodes in order and written the file; a failed run writes no file; whatever fails, the nodes drawn are a prefix of the document, so nothing is drawn after a failure |
| InvoicePdf.RowsCellsShape | internal/invoice-pdf.go:223-240 | the rows hold four cells per item, and item `i`'s cells sit at positions `4i` to `4i+3` |
| InvoicePdf.ItemsTableCells | internal/invoice-pdf.go:194-244 | the items table has 4 columns and 4 + 4n cells: the four header cells, then each item's four cells, in item order |
| InvoicePdf.HeaderCellsContent | internal/invoice-pdf.go:206-222 | the header reads " Title", "Quantity", "Price", "Total"; the first is in the "heading-left" style and the rest in "heading-centered" |
| InvoicePdf.ItemRowContent | internal/invoice-pdf.go:223-240 | an item row is `" " + Title` in "left-highlighted"; then quantity, unit price (Price cents / 100) and line total (line cents / 100), all three in "centered-highlighted" |
| InvoicePdf.InfoTableCells | internal/invoice-pdf.go:178-192 | the info table has exactly two cells: "Business: " + Name, then "Address: " + Address, both in the "left" style |
| InvoicePdf.SummaryContent | internal/invoice-pdf.go:246-273 | the summary table shows "Total Amount:" in "conduct-key" beside the invoice total (cents / 100) in "conduct-val"; the grid has 12 columns and one 7-column cell, which holds the summary |
| InvoicePdf.SummaryOrderIndependent | internal/invoice-pdf.go:261 | reordering the items changes neither the summary table nor the grid |
| InvoicePdf.GenerateInvoicePdf | internal/invoice-pdf.go:87-107 | a missing licence key or a rejected key returns that error before anything is drawn; otherwise a fresh creator runs `generatePdf` exactly as `Exec` runs its plan; success means the five nodes were drawn and the file written; an error means no file was written |
| InvoicePdf.Client.constructor | internal/invoice-pdf.go:101 | the client wraps the given creator and uses the style registry |
| InvoicePdf.Client.GeneratePdf | internal/invoice-pdf.go:109-142 | runs the title section, `writeInvoice` and the file write, exactly as `Exec` runs `generatePdf`'s plan; the error names the last call attempted, which is the one that failed |
| InvoicePdf.Client.DrawTitle | internal/invoice-pdf.go:110-130 | draws the banner, fills the one-cell title table and draws it, exactly as `Exec` runs that section's plan |
| InvoicePdf.Client.WriteInvoice | internal/invoice-pdf.go:176-274 | runs the info, items and total sections, stopping at the first failure, exactly as `Exec` runs their concatenated plans |
| InvoicePdf.Client.DrawInfoTable | internal/invoice-pdf.go:178-192 | fills the two info cells, then draws the table, exactly as `Exec` runs the info plan; the drawn table is the info table |
| InvoicePdf.Client.DrawItemsTable | internal/invoice-pdf.go:194-244 | sets the widths, adds the header and then one row per item in a loop, and draws the table, exactly as `Exec` runs the items plan; the drawn table is `ItemsTable` |
| InvoicePdf.Client.DrawHeader | internal/invoice-pdf.go:206-222 | four cell calls, as `Exec` runs them; on success, the four header cells are appended |
| InvoicePdf.Client.DrawItemRow | internal/invoice-pdf.go:223-240 | one item's four cell calls, as `Exec` runs them; on success, that item's four cells are appended |
| InvoicePdf.Client.DrawSummaryCells | internal/invoice-pdf.go:257-264 | the label cell, then the grand total computed by `CalculateInvoiceTotalAmount`, as `Exec` runs them; on success, the summary table's two cells are appended |
| InvoicePdf.Client.DrawTotal | internal/invoice-pdf.go:246-273 | sets the summary's widths, fills its two cells, puts it into a 7-column cell of a 12-column grid, and draws the grid, exactly as `Exec` runs the total plan |

## Left out

- Floating point.
  - The `float32` and `float64` price branches carry `int64(v * 100)` as an
    opaque, already converted value.
  - The `float64` display values are exact rationals (cents / 100).
  - `fmt.Sprintf("%v", …)` is not rendered to characters; a cell holds the
    value it shows.
  - A style's `BorderWidth` and `Indent` are `float64` in Go but integers
    here. The registry's values (6, 3 and 0) are integral, but a fractional
    width or indent, which `DrawCell` and `DrawCellRules` would accept in Go,
    cannot be expressed.
- InvoiceData.NewInvoiceData: for the float branches, the contract only
  says the stored price is the converted value. The float multiplication and
  the truncation toward zero are not modelled.
- Go's `int` is taken to be 64 bits wide, so the `int` price branch is
  modelled on `int64`.
- Configuration and licensing.
  - The contents of `config/config.go` are not part of this model.
  - `GenerateInvoicePdf` receives the key as a parameter: `None` when the
    `.env` file could not be loaded or the key is empty.
  - Whether `license.SetMeteredKey` accepts a key is a parameter function.
  - Both errors are named, instead of Go's underlying error values.
- A failing library call is taken to have no effect. A failed `Draw` draws
  nothing, a failed `SetContent` or `SetColumnWidths` leaves the cell or the
  table as it was, and a failed `WriteToFile` leaves no output file. Partial
  effects inside the library are not modelled. The claims that a failed run
  writes no file, and that what was drawn is a prefix of the document, rest on
  this rule.
- Library errors are abstracted as `LibraryFailure(call)`, which names the
  call that failed, instead of the library's error value.
- Presentation constants that do not affect the order or content of cells
  are left out:
  - page margins and table margins;
  - text styles and font sizes, and `newPara`'s disabled wrapping;
  - hex colour parsing (colours are named by their hex string);
  - the banner rectangle's width and border width (its height and fill are
    kept);
  - the column-width ratios (a table records only how many widths were set).
- InvoicePdf.ToLower: lowers only the ASCII letters A–Z. Go's
  `strings.ToLower` also lowers other Unicode letters, and Unicode case
  mapping is not modelled.
- InvoicePdf.Client.DrawHeader: the appended cells are stated only on
  success. After a failure the table is abandoned and never drawn.
- InvoicePdf.Client.DrawItemRow: the appended cells are stated only on
  success, for the same reason.
- InvoicePdf.Client.DrawSummaryCells: the appended cells are stated only on
  success, for the same reason.
- Library tables are objects with a cell list. Cell setters act on the most
  recently added cell, which is the cell `drawCell` holds. Aliasing of cell
  handles is not modelled.
- `main.go` is not part of this model: its `panic` calls and `Printf` output
  are left out. Only its sample values are used, in
  `Invoice.SampleInvoiceTotal` and `InvoicePdf.SampleFileName`.
- Invoice items are values, never nil. In Go, `InvoiceItems` is a slice of
  pointers (`internal/invoice.go:6`), and `NewInvoiceData` returns `nil`
  with its error (`internal/invoice-data.go:41`). A nil entry makes the total
  loop panic at `internal/invoice.go:20` and the items table panic at
  `internal/invoice-pdf.go:224`. Such an entry is not modelled; the sample
  caller stops on the error before building the invoice.
- The library's zero values of the alignment, border-side and border-style
  enumerations are kept as values of their own (`UnsetAlign`, `UnsetSide`,
  `UnsetBorderStyle`). If the library's first constants are the left
  alignment, the left side and no border, these coincide with real settings:
  Go's zero `cellStyle` would then look like the "left" style. The model does
  not identify them.
- The `TotalAmount` field of `InvoiceData` is kept as a field that nothing
  writes, as in the source.
