/**
 * An abstraction of the PDF library's `creator`: layout nodes as values,
 * tables as objects whose cells are added in place, and a creator that
 * performs fallible library calls, records them and keeps the drawn page.
 *
 * Whether the n-th fallible call fails is the creator's oracle `fails(n)`;
 * what a call does is fixed by `Attempt`: it takes effect only when it
 * succeeds. So what is proved for all oracles holds whichever calls fail;
 * partial effects of a failing call are not expressed. `Exec` is the reference
 * semantics of running a planned sequence of calls with fail-fast error
 * handling.
 */
module Layout {
  import opened Wrappers
  import opened CellStyles

  /** The text of a paragraph; `Integer` and `Decimal` stand for Go's `%v` rendering of the value. */
  datatype Text = Literal(s: string) | Integer(n: int) | Decimal(x: real)

  datatype Border = Border(side: BorderSide, style: BorderStyle, width: int)

  /** A table cell; `None` attributes were never set and keep the library's default. */
  datatype Cell = Cell(
    span: nat,
    content: Option<Content>,
    hAlign: Option<HAlign>,
    background: Option<Color>,
    border: Option<Border>,
    borderColor: Option<Color>,
    indent: Option<int>)

  /** What a cell holds: a styled paragraph or a nested table. */
  datatype Content = Para(text: Text) | Nested(table: Node)

  /** A drawable node; `widths` is how many column widths were set (0 when none). */
  datatype Node =
    | Rectangle(height: nat, fill: Color)
    | TableNode(cols: nat, widths: nat, cells: seq<Cell>)

  /** A library call that can fail. */
  datatype Call =
    | DrawNode(node: Node)
    | SetCellContent(content: Content)
    | SetWidths(count: nat)
    | WriteFile(name: string)

  /** What the creator has done so far: calls attempted, nodes drawn, file written. */
  datatype Page = Page(log: seq<Call>, drawn: seq<Node>, output: Option<string>)

  datatype Run = Run(page: Page, ok: bool)

  const EmptyPage := Page([], [], None)

  function BlankCell(span: nat): Cell {
    Cell(span, None, None, None, None, None, None)
  }

  /** Attempting `call`: it is logged; its effect on the page happens only if it succeeds. */
  function Attempt(p: Page, call: Call, ok: bool): Page {
    Page(p.log + [call],
         if ok && call.DrawNode? then p.drawn + [call.node] else p.drawn,
         if ok && call.WriteFile? then Some(call.name) else p.output)
  }

  /** Runs `plan` from `p`, stopping at the first call that fails. */
  function Exec(p: Page, plan: seq<Call>, fails: nat -> bool): Run
    decreases |plan|
  {
    if plan == [] then Run(p, true)
    else
      var ok := !fails(|p.log|);
      var p' := Attempt(p, plan[0], ok);
      if ok then Exec(p', plan[1..], fails) else Run(p', false)
  }

  /** The nodes the `DrawNode` calls of a plan draw, in order. */
  function DrawnNodes(plan: seq<Call>): seq<Node> {
    if plan == [] then []
    else (if plan[0].DrawNode? then [plan[0].node] else []) + DrawnNodes(plan[1..])
  }

  predicate WritesNoFile(plan: seq<Call>) {
    forall i :: 0 <= i < |plan| ==> !plan[i].WriteFile?
  }

  /** Running `a + b` is running `a` and, only if it succeeded, `b`. */
  lemma {:induction false} ExecAppend(p: Page, a: seq<Call>, b: seq<Call>, fails: nat -> bool)
    ensures Exec(p, a + b, fails) ==
      var r := Exec(p, a, fails);
      if r.ok then Exec(r.page, b, fails) else r
    decreases |a|
  {
    if a == [] {
      assert a + b == b;
    } else {
      assert (a + b)[0] == a[0];
      assert (a + b)[1..] == a[1..] + b;
      var ok := !fails(|p.log|);
      if ok {
        ExecAppend(Attempt(p, a[0], ok), a[1..], b, fails);
      }
    }
  }

  /**
   * One stage of a run: if `goal` is the run of `first + rest` from `p` and
   * `r` is the run of `first` alone, then `goal` is `r` when `r` failed and
   * otherwise the run of `rest` from where `r` ended.
   */
  lemma Advance(goal: Run, p: Page, first: seq<Call>, rest: seq<Call>, r: Run, fails: nat -> bool)
    requires goal == Exec(p, first + rest, fails)
    requires r == Exec(p, first, fails)
    ensures r.ok ==> goal == Exec(r.page, rest, fails)
    ensures !r.ok ==> goal == r
  {
    ExecAppend(p, first, rest, fails);
  }

  /** None of the calls numbered `from` up to (not including) `to` fails. */
  predicate NoFailure(fails: nat -> bool, from: nat, to: nat) {
    forall k: nat :: from <= k < to ==> !fails(k)
  }

  /**
   * Fail-fast: a run attempts the planned calls in order and stops right
   * after the first failure; it succeeds exactly when no planned call fails.
   */
  lemma {:induction false} ExecFailFast(p: Page, plan: seq<Call>, fails: nat -> bool)
    ensures var r := Exec(p, plan, fails);
      var n := |r.page.log| - |p.log|;
      && 0 <= n <= |plan|
      && r.page.log == p.log + plan[..n]
      && (r.ok <==> NoFailure(fails, |p.log|, |p.log| + |plan|))
      && (r.ok ==> n == |plan|)
      && (!r.ok ==> 0 < n && fails(|p.log| + n - 1))
      && (n > 0 ==> NoFailure(fails, |p.log|, |p.log| + n - 1))
    decreases |plan|
  {
    if plan != [] {
      var ok := !fails(|p.log|);
      var p' := Attempt(p, plan[0], ok);
      if ok {
        ExecFailFast(p', plan[1..], fails);
        var r := Exec(p', plan[1..], fails);
        var n := |r.page.log| - |p'.log|;
        assert p.log + plan[..n + 1] == p'.log + plan[1..][..n];
        if !r.ok {
          assert fails(|p'.log| + n - 1);
        }
      } else {
        assert plan[..1] == [plan[0]];
      }
    }
  }

  /** A run that fails has attempted at least one call. */
  lemma ExecFailureLogged(p: Page, plan: seq<Call>, fails: nat -> bool)
    ensures !Exec(p, plan, fails).ok ==> |Exec(p, plan, fails).page.log| > |p.log|
  {
    ExecFailFast(p, plan, fails);
  }

  lemma {:induction false} DrawnNodesAppend(a: seq<Call>, b: seq<Call>)
    ensures DrawnNodes(a + b) == DrawnNodes(a) + DrawnNodes(b)
    decreases |a|
  {
    if a == [] {
      assert a + b == b;
    } else {
      assert (a + b)[0] == a[0];
      assert (a + b)[1..] == a[1..] + b;
      DrawnNodesAppend(a[1..], b);
    }
  }

  /** A run that succeeds draws exactly the plan's nodes, in plan order. */
  lemma {:induction false} ExecDrawsPlanNodes(p: Page, plan: seq<Call>, fails: nat -> bool)
    ensures Exec(p, plan, fails).ok ==> Exec(p, plan, fails).page.drawn == p.drawn + DrawnNodes(plan)
    decreases |plan|
  {
    if plan != [] {
      var ok := !fails(|p.log|);
      if ok {
        ExecDrawsPlanNodes(Attempt(p, plan[0], ok), plan[1..], fails);
      }
    }
  }

  /**
   * Whatever fails, a run only adds to what was drawn, and what it adds is a
   * prefix of the plan's nodes: nothing is drawn after a failure.
   */
  lemma {:induction false} ExecDrawsPrefix(p: Page, plan: seq<Call>, fails: nat -> bool)
    ensures var r := Exec(p, plan, fails);
      p.drawn <= r.page.drawn && r.page.drawn[|p.drawn|..] <= DrawnNodes(plan)
    decreases |plan|
  {
    if plan != [] {
      var ok := !fails(|p.log|);
      if ok {
        var p' := Attempt(p, plan[0], true);
        var rest := plan[1..];
        ExecDrawsPrefix(p', rest, fails);
        var d := Exec(p', rest, fails).page.drawn;
        var head := if plan[0].DrawNode? then [plan[0].node] else [];
        assert p'.drawn == p.drawn + head;
        assert plan == [plan[0]] + rest;
        PrependCall(plan[0], rest);
        assert d[|p.drawn|..] == head + d[|p'.drawn|..];
      }
    }
  }

  /** What one more call in front of a plan adds. */
  lemma PrependCall(call: Call, rest: seq<Call>)
    ensures DrawnNodes([call] + rest) == (if call.DrawNode? then [call.node] else []) + DrawnNodes(rest)
    ensures !call.WriteFile? && WritesNoFile(rest) ==> WritesNoFile([call] + rest)
  {
    assert ([call] + rest)[1..] == rest;
    if !call.WriteFile? && WritesNoFile(rest) {
      forall i | 0 <= i < |[call] + rest| ensures !([call] + rest)[i].WriteFile? {
        if i > 0 {
          assert ([call] + rest)[i] == rest[i - 1];
        }
      }
    }
  }

  lemma WritesNoFileAppend(a: seq<Call>, b: seq<Call>)
    requires WritesNoFile(a) && WritesNoFile(b)
    ensures WritesNoFile(a + b)
  {
    forall i | 0 <= i < |a + b| ensures !(a + b)[i].WriteFile? {
      if i >= |a| {
        assert (a + b)[i] == b[i - |a|];
      }
    }
  }

  /** A plan without a `WriteFile` call never changes the output, whatever fails. */
  lemma {:induction false} ExecKeepsOutput(p: Page, plan: seq<Call>, fails: nat -> bool)
    requires WritesNoFile(plan)
    ensures Exec(p, plan, fails).page.output == p.output
    decreases |plan|
  {
    if plan != [] {
      var ok := !fails(|p.log|);
      assert !plan[0].WriteFile?;
      if ok {
        assert WritesNoFile(plan[1..]) by {
          forall i | 0 <= i < |plan[1..]| ensures !plan[1..][i].WriteFile? {
            assert plan[1..][i] == plan[i + 1];
          }
        }
        ExecKeepsOutput(Attempt(p, plan[0], ok), plan[1..], fails);
      }
    }
  }

  function Last(cells: seq<Cell>): Cell
    requires |cells| > 0
  {
    cells[|cells| - 1]
  }

  /** `cells` with its last cell replaced. */
  function WithLast(cells: seq<Cell>, c: Cell): (r: seq<Cell>)
    requires |cells| > 0
    ensures |r| == |cells| && r[..|r| - 1] == cells[..|cells| - 1] && Last(r) == c
  {
    cells[..|cells| - 1] + [c]
  }

  /** Replacing the last cell of `cells + [c]`. */
  lemma WithLastAppended(cells: seq<Cell>, c: Cell, d: Cell)
    ensures Last(cells + [c]) == c
    ensures WithLast(cells + [c], d) == cells + [d]
  {
    assert (cells + [d])[..|cells|] == cells;
  }

  /**
   * A library table. Cells are appended by `NewCell` and `MultiColCell`; the
   * setters act on the cell just created, which is the last one.
   */
  class Table {
    var cols: nat
    var widths: nat
    var cells: seq<Cell>

    constructor (cols: nat)
      ensures this.cols == cols && widths == 0 && cells == []
    {
      this.cols := cols;
      widths := 0;
      cells := [];
    }

    function Snapshot(): Node
      reads this
    {
      TableNode(cols, widths, cells)
    }

    method NewCell()
      modifies this
      ensures cols == old(cols) && widths == old(widths)
      ensures cells == old(cells) + [BlankCell(1)]
    {
      cells := cells + [BlankCell(1)];
    }

    method MultiColCell(span: nat)
      modifies this
      ensures cols == old(cols) && widths == old(widths)
      ensures cells == old(cells) + [BlankCell(span)]
    {
      cells := cells + [BlankCell(span)];
    }

    method SetHorizontalAlignment(a: HAlign)
      requires |cells| > 0
      modifies this
      ensures cols == old(cols) && widths == old(widths)
      ensures cells == WithLast(old(cells), Last(old(cells)).(hAlign := Some(a)))
    {
      cells := WithLast(cells, Last(cells).(hAlign := Some(a)));
    }

    method SetBackgroundColor(c: Color)
      requires |cells| > 0
      modifies this
      ensures cols == old(cols) && widths == old(widths)
      ensures cells == WithLast(old(cells), Last(old(cells)).(background := Some(c)))
    {
      cells := WithLast(cells, Last(cells).(background := Some(c)));
    }

    method SetBorder(side: BorderSide, style: BorderStyle, width: int)
      requires |cells| > 0
      modifies this
      ensures cols == old(cols) && widths == old(widths)
      ensures cells == WithLast(old(cells), Last(old(cells)).(border := Some(Border(side, style, width))))
    {
      cells := WithLast(cells, Last(cells).(border := Some(Border(side, style, width))));
    }

    method SetBorderColor(c: Color)
      requires |cells| > 0
      modifies this
      ensures cols == old(cols) && widths == old(widths)
      ensures cells == WithLast(old(cells), Last(old(cells)).(borderColor := Some(c)))
    {
      cells := WithLast(cells, Last(cells).(borderColor := Some(c)));
    }

    method SetIndent(x: int)
      requires |cells| > 0
      modifies this
      ensures cols == old(cols) && widths == old(widths)
      ensures cells == WithLast(old(cells), Last(old(cells)).(indent := Some(x)))
    {
      cells := WithLast(cells, Last(cells).(indent := Some(x)));
    }
  }

  /** The library's document creator. Each fallible method is one step of `Exec`. */
  class Creator {
    const fails: nat -> bool
    var log: seq<Call>
    var drawn: seq<Node>
    var output: Option<string>

    constructor (fails: nat -> bool)
      ensures this.fails == fails && State() == EmptyPage
    {
      this.fails := fails;
      log, drawn, output := [], [], None;
    }

    function State(): Page
      reads this
    {
      Page(log, drawn, output)
    }

    /** The shared body of every fallible call. */
    method Perform(call: Call) returns (ok: bool)
      modifies this
      ensures Run(State(), ok) == Exec(old(State()), [call], fails)
    {
      ok := !fails(|log|);
      log := log + [call];
      if ok && call.DrawNode? {
        drawn := drawn + [call.node];
      }
      if ok && call.WriteFile? {
        output := Some(call.name);
      }
    }

    method Draw(node: Node) returns (ok: bool)
      modifies this
      ensures Run(State(), ok) == Exec(old(State()), [DrawNode(node)], fails)
    {
      ok := Perform(DrawNode(node));
    }

    method WriteToFile(name: string) returns (ok: bool)
      modifies this
      ensures Run(State(), ok) == Exec(old(State()), [WriteFile(name)], fails)
    {
      ok := Perform(WriteFile(name));
    }

    /** Sets the content of the table's newest cell. */
    method SetContent(t: Table, content: Content) returns (ok: bool)
      requires |t.cells| > 0
      modifies this, t
      ensures Run(State(), ok) == Exec(old(State()), [SetCellContent(content)], fails)
      ensures t.cols == old(t.cols) && t.widths == old(t.widths)
      ensures t.cells == if ok then WithLast(old(t.cells), Last(old(t.cells)).(content := Some(content)))
                         else old(t.cells)
    {
      ok := Perform(SetCellContent(content));
      if ok {
        t.cells := WithLast(t.cells, Last(t.cells).(content := Some(content)));
      }
    }

    method SetColumnWidths(t: Table, count: nat) returns (ok: bool)
      modifies this, t
      ensures Run(State(), ok) == Exec(old(State()), [SetWidths(count)], fails)
      ensures t.cols == old(t.cols) && t.cells == old(t.cells)
      ensures t.widths == if ok then count else old(t.widths)
    {
      ok := Perform(SetWidths(count));
      if ok {
        t.widths := count;
      }
    }
  }
}
