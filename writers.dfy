/**
 * Writing two-level pivots into a worksheet (write_multi_index_pivot) and
 * placing the four review-note pivots side by side
 * (write_pivot_tables_to_sheet). Only cell values are modelled; fonts,
 * fills, borders, indentation and column widths are not.
 */
module Writers {
  import opened Wrappers
  import opened KeyOrder
  import opened Aggregate
  import opened Pivots

  /** A cell value: text, or a number. */
  datatype Cell = Text(text: string) | Number(n: int)

  /** An openpyxl worksheet, reduced to the values of its cells by (row, column). */
  class Worksheet {
    var cells: map<(int, int), Cell>

    constructor ()
      ensures cells == map[]
    {
      cells := map[];
    }

    /** `ws.cell(row=row, column=col, value=v)` */
    method SetCell(row: int, col: int, v: Cell)
      modifies this
      ensures cells == old(cells)[(row, col) := v]
    {
      cells := cells[(row, col) := v];
    }
  }

  datatype WriteError =
    | NotMultiIndex        // the index is not a two-level MultiIndex
    | NoValueColumn        // IndexError: `columns.to_list()[0]` of a pivot without a value column
    | MissingPivot(name: string)  // KeyError: a pivot missing from the dict handed to the sheet writer

  // ---------------------------------------------------------------------
  // The layout of one pivot, as functions
  // ---------------------------------------------------------------------

  predicate TwoLevel(es: seq<Entry>) {
    forall i :: 0 <= i < |es| ==> |es[i].key| == 2
  }

  /** A pivot the writer accepts: a two-level index and a value column to name. */
  predicate Writable(p: Pivot) {
    |p.indexNames| == 2 && p.columns != []
  }

  /** The error a pivot the writer does not accept raises, in the order the writer meets them. */
  function Refusal(p: Pivot): WriteError {
    if |p.indexNames| != 2 then NotMultiIndex else NoValueColumn
  }

  /** The name written above the counts: the first column of the pivot. */
  function ValueName(p: Pivot): string {
    if p.columns == [] then "" else p.columns[0]
  }

  /** `if title:` -- None and the empty string both mean no title. */
  predicate HasTitle(title: Option<string>) {
    title.Some? && title.value != ""
  }

  /** The row of the "Row Labels" header. */
  function HeaderRow(startRow: int, title: Option<string>): int {
    if HasTitle(title) then startRow + 2 else startRow
  }

  /** The title row: the title and an empty string beside it. */
  function TitleCells(startRow: int, col: int, title: Option<string>): map<(int, int), Cell> {
    if HasTitle(title) then map[(startRow, col) := Text(title.value), (startRow, col + 1) := Text("")] else map[]
  }

  function HeaderCells(headerRow: int, col: int, valueName: string): map<(int, int), Cell> {
    map[(headerRow, col) := Text("Row Labels"), (headerRow, col + 1) := Text(valueName)]
  }

  /** `pivot_df.groupby(level=0).sum()` at group g: every row of group g, wherever it is. */
  function GroupTotal(es: seq<Entry>, g: string): nat
    requires TwoLevel(es)
  {
    if es == [] then 0 else (if es[0].key[0] == g then es[0].count else 0) + GroupTotal(es[1..], g)
  }

  /** The totals computed before the walk, one per level-0 value. */
  function GroupTotals(es: seq<Entry>): (totals: map<string, nat>)
    requires TwoLevel(es)
    ensures forall i :: 0 <= i < |es| ==> es[i].key[0] in totals
    ensures forall g :: g in totals ==> totals[g] == GroupTotal(es, g)
  {
    if es == [] then map[]
    else GroupTotals(es[1..])[es[0].key[0] := GroupTotal(es, es[0].key[0])]
  }

  /** Row i opens a new level-0 group: the first row, or a group different from the row before. */
  predicate IsGroupStart(es: seq<Entry>, i: nat)
    requires TwoLevel(es) && i < |es|
  {
    i == 0 || es[i].key[0] != es[i - 1].key[0]
  }

  /** Number of subtotal rows among the first n pivot rows. */
  function GroupStarts(es: seq<Entry>, n: nat): nat
    requires TwoLevel(es) && n <= |es|
  {
    if n == 0 then 0 else GroupStarts(es, n - 1) + (if IsGroupStart(es, n - 1) then 1 else 0)
  }

  /** Sum of the subtotals shown among the first n pivot rows. */
  function SubtotalSum(es: seq<Entry>, n: nat): nat
    requires TwoLevel(es) && n <= |es|
  {
    if n == 0 then 0
    else SubtotalSum(es, n - 1) + (if IsGroupStart(es, n - 1) then GroupTotal(es, es[n - 1].key[0]) else 0)
  }

  /** The loop variables of the writer and the cells written so far. */
  datatype WalkState = WalkState(row: int, group: Option<string>, grandTotal: int, cells: map<(int, int), Cell>)

  /** One pass of the loop body for pivot row e. */
  function Step(es: seq<Entry>, col: int, s: WalkState, e: Entry): WalkState
    requires TwoLevel(es) && |e.key| == 2
  {
    var s1 :=
      if s.group != Some(e.key[0]) then
        var total := GroupTotal(es, e.key[0]);
        WalkState(s.row + 1, Some(e.key[0]), s.grandTotal + total,
                  s.cells[(s.row, col) := Text(e.key[0])][(s.row, col + 1) := Number(total)])
      else s;
    WalkState(s1.row + 1, s1.group, s1.grandTotal,
              s1.cells[(s1.row, col) := Text(e.key[1])][(s1.row, col + 1) := Number(e.count)])
  }

  /** The state after the first n pivot rows, starting at firstRow. */
  function Walk(es: seq<Entry>, n: nat, firstRow: int, col: int): WalkState
    requires TwoLevel(es) && n <= |es|
  {
    if n == 0 then WalkState(firstRow, None, 0, map[])
    else Step(es, col, Walk(es, n - 1, firstRow, col), es[n - 1])
  }

  /**
   * The row of the Grand Total, which the writer returns: below the header
   * come one row per pivot row and one subtotal row per group start.
   */
  function LastRow(p: Pivot, startRow: int, title: Option<string>): int
    requires TwoLevel(p.entries)
  {
    HeaderRow(startRow, title) + 1 + |p.entries| + GroupStarts(p.entries, |p.entries|)
  }

  /** The Grand Total row, written where the walk stopped. */
  function GrandTotalCells(w: WalkState, col: int): map<(int, int), Cell> {
    map[(w.row, col) := Text("Grand Total"), (w.row, col + 1) := Number(w.grandTotal)]
  }

  /** Title, header, the walked rows and the Grand Total, in the order they are written. */
  function Assemble(t: map<(int, int), Cell>, hd: map<(int, int), Cell>, w: WalkState, col: int): map<(int, int), Cell> {
    t + hd + w.cells + GrandTotalCells(w, col)
  }

  /** Every cell one pivot writes. */
  function PivotCells(p: Pivot, startRow: int, col: int, title: Option<string>): map<(int, int), Cell>
    requires TwoLevel(p.entries)
  {
    var h := HeaderRow(startRow, title);
    Assemble(TitleCells(startRow, col, title), HeaderCells(h, col, ValueName(p)), Walk(p.entries, |p.entries|, h + 1, col), col)
  }

  // ---------------------------------------------------------------------
  // write_multi_index_pivot
  // ---------------------------------------------------------------------

  /**
   * Write pivot p with its top-left corner at (startRow, startCol) and
   * return the row of its Grand Total. A pivot without a two-level index,
   * or without a value column to name, is rejected before anything is
   * written.
   */
  method WriteMultiIndexPivot(ws: Worksheet, p: Pivot, startRow: int, startCol: int, title: Option<string>)
    returns (r: Result<int, WriteError>)
    requires WellFormed(p)
    modifies ws
    ensures r.Err? <==> !Writable(p)
    ensures r.Err? ==> r.error == Refusal(p) && ws.cells == old(ws.cells)
    ensures r.Ok? ==> && r.value == LastRow(p, startRow, title)
                      && ws.cells == old(ws.cells) + PivotCells(p, startRow, startCol, title)
  {
    if |p.indexNames| != 2 {
      return Err(NotMultiIndex);
    }
    if p.columns == [] {
      return Err(NoValueColumn);
    }
    var es := p.entries;
    assert TwoLevel(es);
    var valueName := p.columns[0];
    ghost var o := ws.cells;
    var headerRow := WriteHeader(ws, startRow, startCol, title, valueName);
    var currentRow, grandTotal := WriteRows(ws, es, headerRow + 1, startCol);
    ws.SetCell(currentRow, startCol, Text("Grand Total"));
    ws.SetCell(currentRow, startCol + 1, Number(grandTotal));
    WrittenPivot(o, p, startRow, startCol, title, ws.cells);
    return Ok(currentRow);
  }

  /** The title row, when there is a title, then the "Row Labels" header; returns the header row. */
  method WriteHeader(ws: Worksheet, startRow: int, col: int, title: Option<string>, valueName: string)
    returns (headerRow: int)
    modifies ws
    ensures headerRow == HeaderRow(startRow, title)
    ensures ws.cells == old(ws.cells) + TitleCells(startRow, col, title) + HeaderCells(headerRow, col, valueName)
  {
    headerRow := startRow;
    if HasTitle(title) {
      ws.SetCell(headerRow, col, Text(title.value));
      ws.SetCell(headerRow, col + 1, Text(""));
      headerRow := headerRow + 2;
    }
    ws.SetCell(headerRow, col, Text("Row Labels"));
    ws.SetCell(headerRow, col + 1, Text(valueName));
    HeadUnion(old(ws.cells), startRow, col, title, headerRow, valueName);
  }

  /** Header, walked rows and the Grand Total row written over o make o plus the pivot's cells. */
  lemma WrittenPivot(o: map<(int, int), Cell>, p: Pivot, startRow: int, col: int, title: Option<string>,
                     cells: map<(int, int), Cell>)
    requires TwoLevel(p.entries)
    requires var h := HeaderRow(startRow, title);
      var w := Walk(p.entries, |p.entries|, h + 1, col);
      cells == (o + TitleCells(startRow, col, title) + HeaderCells(h, col, ValueName(p)) + w.cells)
               [(w.row, col) := Text("Grand Total")][(w.row, col + 1) := Number(w.grandTotal)]
    ensures cells == o + PivotCells(p, startRow, col, title)
    ensures Walk(p.entries, |p.entries|, HeaderRow(startRow, title) + 1, col).row == LastRow(p, startRow, title)
  {
    var h := HeaderRow(startRow, title);
    var w := Walk(p.entries, |p.entries|, h + 1, col);
    PivotLastRow(p, startRow, col, title);
    LayoutUnion(o, TitleCells(startRow, col, title), HeaderCells(h, col, ValueName(p)), w.cells,
                (w.row, col), Text("Grand Total"), (w.row, col + 1), Number(w.grandTotal));
  }

  /**
   * The body rows of a pivot, from firstRow down: a subtotal row (group
   * name and its total from the precomputed totals) each time the level-0
   * value changes, then the row's level-1 label and count. Returns the row
   * after the last one written and the sum of the subtotals written.
   */
  method WriteRows(ws: Worksheet, es: seq<Entry>, firstRow: int, col: int) returns (nextRow: int, grandTotal: int)
    requires TwoLevel(es)
    modifies ws
    ensures var w := Walk(es, |es|, firstRow, col);
      && nextRow == w.row && grandTotal == w.grandTotal
      && ws.cells == old(ws.cells) + w.cells
  {
    ghost var before := ws.cells;
    var currentRow := firstRow;
    var currentGroup: Option<string> := None;
    var totals := GroupTotals(es);
    grandTotal := 0;

    ghost var w := WalkState(currentRow, currentGroup, grandTotal, map[]);
    assert ws.cells == before + w.cells;
    for i := 0 to |es|
      invariant w == Walk(es, i, firstRow, col)
      invariant w.row == currentRow && w.group == currentGroup && w.grandTotal == grandTotal
      invariant ws.cells == before + w.cells
    {
      ghost var w0 := w;
      var group, leafLabel, count := es[i].key[0], es[i].key[1], es[i].count;
      if Some(group) != currentGroup {
        StepOpensGroup(es, col, w0, es[i]);
        var total := totals[group];
        ws.SetCell(currentRow, col, Text(group));
        ws.SetCell(currentRow, col + 1, Number(total));
        w := OpenGroup(before, w, col, group, total);
        grandTotal := grandTotal + total;
        currentGroup := Some(group);
        currentRow := currentRow + 1;
      } else {
        StepInGroup(es, col, w0, es[i]);
      }
      ws.SetCell(currentRow, col, Text(leafLabel));
      ws.SetCell(currentRow, col + 1, Number(count));
      w := WriteLeaf(before, w, col, leafLabel, count);
      currentRow := currentRow + 1;
    }
    nextRow := currentRow;
  }

  /** The two cells of a subtotal row, written over base + w.cells. */
  lemma OpenGroup(base: map<(int, int), Cell>, w: WalkState, col: int, g: string, total: int)
    returns (w': WalkState)
    ensures w' == WalkState(w.row + 1, Some(g), w.grandTotal + total,
                            w.cells[(w.row, col) := Text(g)][(w.row, col + 1) := Number(total)])
    ensures (base + w.cells)[(w.row, col) := Text(g)][(w.row, col + 1) := Number(total)] == base + w'.cells
  {
    w' := WalkState(w.row + 1, Some(g), w.grandTotal + total,
                    w.cells[(w.row, col) := Text(g)][(w.row, col + 1) := Number(total)]);
    UpdateUnder(base, w.cells, (w.row, col), Text(g));
    UpdateUnder(base, w.cells[(w.row, col) := Text(g)], (w.row, col + 1), Number(total));
  }

  /** The two cells of a leaf row, written over base + w.cells. */
  lemma WriteLeaf(base: map<(int, int), Cell>, w: WalkState, col: int, leafLabel: string, count: int)
    returns (w': WalkState)
    ensures w' == WalkState(w.row + 1, w.group, w.grandTotal,
                            w.cells[(w.row, col) := Text(leafLabel)][(w.row, col + 1) := Number(count)])
    ensures (base + w.cells)[(w.row, col) := Text(leafLabel)][(w.row, col + 1) := Number(count)] == base + w'.cells
  {
    w' := WalkState(w.row + 1, w.group, w.grandTotal,
                    w.cells[(w.row, col) := Text(leafLabel)][(w.row, col + 1) := Number(count)]);
    UpdateUnder(base, w.cells, (w.row, col), Text(leafLabel));
    UpdateUnder(base, w.cells[(w.row, col) := Text(leafLabel)], (w.row, col + 1), Number(count));
  }

  /** Step on a row that opens a new group: a subtotal row, then the leaf row. */
  lemma StepOpensGroup(es: seq<Entry>, col: int, s: WalkState, e: Entry)
    requires TwoLevel(es) && |e.key| == 2 && s.group != Some(e.key[0])
    ensures var total := GroupTotal(es, e.key[0]);
      Step(es, col, s, e) == WalkState(s.row + 2, Some(e.key[0]), s.grandTotal + total,
        s.cells[(s.row, col) := Text(e.key[0])][(s.row, col + 1) := Number(total)]
               [(s.row + 1, col) := Text(e.key[1])][(s.row + 1, col + 1) := Number(e.count)])
  {
  }

  /** Step on a row of the current group: the leaf row only. */
  lemma StepInGroup(es: seq<Entry>, col: int, s: WalkState, e: Entry)
    requires TwoLevel(es) && |e.key| == 2 && s.group == Some(e.key[0])
    ensures Step(es, col, s, e) == WalkState(s.row + 1, s.group, s.grandTotal,
        s.cells[(s.row, col) := Text(e.key[1])][(s.row, col + 1) := Number(e.count)])
  {
  }

  /** The title and header cells, grouped as PivotCells groups them. */
  lemma HeadUnion(o: map<(int, int), Cell>, startRow: int, col: int, title: Option<string>, h: int, valueName: string)
    requires h == HeaderRow(startRow, title)
    ensures (if HasTitle(title) then o[(startRow, col) := Text(title.value)][(startRow, col + 1) := Text("")] else o)
              [(h, col) := Text("Row Labels")][(h, col + 1) := Text(valueName)]
            == o + TitleCells(startRow, col, title) + HeaderCells(h, col, valueName)
  {
  }

  /** Writing over a union writes over its right-hand side. */
  lemma UpdateUnder<K, V>(base: map<K, V>, m: map<K, V>, k: K, v: V)
    ensures (base + m)[k := v] == base + m[k := v]
  {
  }

  /** The cells after the last two writes, grouped as PivotCells groups them. */
  lemma LayoutUnion<K, V>(o: map<K, V>, t: map<K, V>, h: map<K, V>, w: map<K, V>, k1: K, v1: V, k2: K, v2: V)
    ensures (o + t + h + w)[k1 := v1][k2 := v2] == o + (t + h + w + map[k1 := v1, k2 := v2])
  {
  }

  // ---------------------------------------------------------------------
  // What the layout guarantees
  // ---------------------------------------------------------------------

  /** The sheet row of pivot row i: after i earlier rows and one subtotal per group opened so far. */
  function LeafRow(es: seq<Entry>, i: nat, firstRow: int): int
    requires TwoLevel(es) && i < |es|
  {
    firstRow + i + GroupStarts(es, i + 1)
  }

  /** The level-0 values among the first n pivot rows. */
  function GroupsSeen(es: seq<Entry>, n: nat): set<string>
    requires TwoLevel(es) && n <= |es|
  {
    if n == 0 then {} else GroupsSeen(es, n - 1) + {es[n - 1].key[0]}
  }

  /** A level-0 value never comes back once another one has followed it. */
  predicate Contiguous(es: seq<Entry>)
    requires TwoLevel(es)
  {
    forall i, j, k :: 0 <= i < j < k < |es| && es[i].key[0] == es[k].key[0] ==> es[j].key[0] == es[i].key[0]
  }

  lemma {:induction false} GroupStartsMonotone(es: seq<Entry>, m: nat, n: nat)
    requires TwoLevel(es) && m <= n <= |es|
    ensures GroupStarts(es, m) <= GroupStarts(es, n)
    decreases n - m
  {
    if m < n {
      GroupStartsMonotone(es, m, n - 1);
    }
  }

  /** Step, by whether the walk's current group differs from the row's level-0 value. */
  lemma StepCases(es: seq<Entry>, col: int, s: WalkState, e: Entry)
    requires TwoLevel(es) && |e.key| == 2
    ensures s.group != Some(e.key[0]) ==> Step(es, col, s, e).row == s.row + 2
    ensures s.group == Some(e.key[0]) ==> Step(es, col, s, e).row == s.row + 1
    ensures Step(es, col, s, e).group == Some(e.key[0])
    ensures Step(es, col, s, e).grandTotal == s.grandTotal + (if s.group != Some(e.key[0]) then GroupTotal(es, e.key[0]) else 0)
  {
  }

  /**
   * After n pivot rows the walk has used n leaf rows and one subtotal row
   * per group start, its group is the last row's level-0 value, and its
   * grand total is the sum of the subtotals shown.
   */
  lemma {:induction false} WalkCounters(es: seq<Entry>, n: nat, firstRow: int, col: int)
    requires TwoLevel(es) && n <= |es|
    ensures Walk(es, n, firstRow, col).row == firstRow + n + GroupStarts(es, n)
    ensures Walk(es, n, firstRow, col).group == (if n == 0 then None else Some(es[n - 1].key[0]))
    ensures Walk(es, n, firstRow, col).grandTotal == SubtotalSum(es, n)
  {
    if n > 0 {
      WalkCounters(es, n - 1, firstRow, col);
      StepCases(es, col, Walk(es, n - 1, firstRow, col), es[n - 1]);
    }
  }

  /** Every cell lies in columns col and col + 1 of a row from lo to hi - 1. */
  predicate CellsWithin(cells: map<(int, int), Cell>, lo: int, hi: int, col: int) {
    forall rc :: rc in cells ==> lo <= rc.0 < hi && (rc.1 == col || rc.1 == col + 1)
  }

  /** Both columns of every row from lo to hi - 1 hold a cell. */
  predicate RowsFilled(cells: map<(int, int), Cell>, lo: int, hi: int, col: int) {
    forall q :: lo <= q < hi ==> (q, col) in cells && (q, col + 1) in cells
  }

  /** Writing both columns of the next row keeps the block filled and bounded. */
  lemma AddRow(cells: map<(int, int), Cell>, lo: int, hi: int, col: int, a: Cell, b: Cell)
    requires lo <= hi && CellsWithin(cells, lo, hi, col) && RowsFilled(cells, lo, hi, col)
    ensures CellsWithin(cells[(hi, col) := a][(hi, col + 1) := b], lo, hi + 1, col)
    ensures RowsFilled(cells[(hi, col) := a][(hi, col + 1) := b], lo, hi + 1, col)
  {
  }

  /** One step adds one or two full rows below a bounded, filled block. */
  lemma StepFootprint(es: seq<Entry>, col: int, s: WalkState, e: Entry, lo: int)
    requires TwoLevel(es) && |e.key| == 2
    requires lo <= s.row && CellsWithin(s.cells, lo, s.row, col) && RowsFilled(s.cells, lo, s.row, col)
    ensures lo <= Step(es, col, s, e).row
    ensures CellsWithin(Step(es, col, s, e).cells, lo, Step(es, col, s, e).row, col)
    ensures RowsFilled(Step(es, col, s, e).cells, lo, Step(es, col, s, e).row, col)
  {
    if s.group != Some(e.key[0]) {
      StepOpensGroup(es, col, s, e);
      var total := GroupTotal(es, e.key[0]);
      var c1 := s.cells[(s.row, col) := Text(e.key[0])][(s.row, col + 1) := Number(total)];
      AddRow(s.cells, lo, s.row, col, Text(e.key[0]), Number(total));
      AddRow(c1, lo, s.row + 1, col, Text(e.key[1]), Number(e.count));
    } else {
      StepInGroup(es, col, s, e);
      AddRow(s.cells, lo, s.row, col, Text(e.key[1]), Number(e.count));
    }
  }

  /** The walk writes only the two pivot columns of the rows it has used, and fills both in every one. */
  lemma {:induction false} WalkFootprint(es: seq<Entry>, n: nat, firstRow: int, col: int)
    requires TwoLevel(es) && n <= |es|
    ensures firstRow <= Walk(es, n, firstRow, col).row
    ensures CellsWithin(Walk(es, n, firstRow, col).cells, firstRow, Walk(es, n, firstRow, col).row, col)
    ensures RowsFilled(Walk(es, n, firstRow, col).cells, firstRow, Walk(es, n, firstRow, col).row, col)
  {
    if n > 0 {
      WalkFootprint(es, n - 1, firstRow, col);
      StepFootprint(es, col, Walk(es, n - 1, firstRow, col), es[n - 1], firstRow);
    }
  }

  /** A step writes only at or below the row the walk has reached. */
  lemma StepKeeps(es: seq<Entry>, col: int, s: WalkState, e: Entry, rc: (int, int))
    requires TwoLevel(es) && |e.key| == 2 && rc.0 < s.row
    ensures rc in Step(es, col, s, e).cells <==> rc in s.cells
    ensures rc in s.cells ==> Step(es, col, s, e).cells[rc] == s.cells[rc]
  {
    if s.group != Some(e.key[0]) {
      StepOpensGroup(es, col, s, e);
    } else {
      StepInGroup(es, col, s, e);
    }
  }

  /** The cells a step writes for pivot row e. */
  lemma StepWrites(es: seq<Entry>, col: int, s: WalkState, e: Entry)
    requires TwoLevel(es) && |e.key| == 2
    ensures var r := Step(es, col, s, e).row - 1;
      var cells := Step(es, col, s, e).cells;
      && (r, col) in cells && cells[(r, col)] == Text(e.key[1])
      && (r, col + 1) in cells && cells[(r, col + 1)] == Number(e.count)
      && (s.group != Some(e.key[0]) ==>
            && (r - 1, col) in cells && cells[(r - 1, col)] == Text(e.key[0])
            && (r - 1, col + 1) in cells && cells[(r - 1, col + 1)] == Number(GroupTotal(es, e.key[0])))
  {
    if s.group != Some(e.key[0]) {
      StepOpensGroup(es, col, s, e);
    } else {
      StepInGroup(es, col, s, e);
    }
  }

  /**
   * Pivot row i shown at LeafRow: its level-1 label and its count; when it
   * opens a group, the row above holds the group name and the group's total.
   */
  predicate LeafShown(es: seq<Entry>, i: nat, firstRow: int, col: int, cells: map<(int, int), Cell>)
    requires TwoLevel(es) && i < |es|
  {
    var r := LeafRow(es, i, firstRow);
    && (r, col) in cells && cells[(r, col)] == Text(es[i].key[1])
    && (r, col + 1) in cells && cells[(r, col + 1)] == Number(es[i].count)
    && (IsGroupStart(es, i) ==>
          && (r - 1, col) in cells && cells[(r - 1, col)] == Text(es[i].key[0])
          && (r - 1, col + 1) in cells && cells[(r - 1, col + 1)] == Number(GroupTotal(es, es[i].key[0])))
  }

  /** From the counters of the first i rows, the step for pivot row i writes it at LeafRow. */
  lemma StepShows(es: seq<Entry>, col: int, s: WalkState, i: nat, firstRow: int)
    requires TwoLevel(es) && i < |es|
    requires s.row == firstRow + i + GroupStarts(es, i)
    requires s.group == (if i == 0 then None else Some(es[i - 1].key[0]))
    ensures LeafShown(es, i, firstRow, col, Step(es, col, s, es[i]).cells)
  {
    StepCases(es, col, s, es[i]);
    StepWrites(es, col, s, es[i]);
  }

  /** The step for pivot row n - 1 writes that row. */
  lemma WalkLeafLast(es: seq<Entry>, n: nat, firstRow: int, col: int)
    requires TwoLevel(es) && 0 < n <= |es|
    ensures LeafShown(es, n - 1, firstRow, col, Walk(es, n, firstRow, col).cells)
  {
    WalkCounters(es, n - 1, firstRow, col);
    StepShows(es, col, Walk(es, n - 1, firstRow, col), n - 1, firstRow);
  }

  /** A step leaves both cells of a row above its start as they were. */
  lemma PairKept(es: seq<Entry>, col: int, s: WalkState, e: Entry, r: int, a: Cell, b: Cell)
    requires TwoLevel(es) && |e.key| == 2 && r < s.row
    requires (r, col) in s.cells && s.cells[(r, col)] == a
    requires (r, col + 1) in s.cells && s.cells[(r, col + 1)] == b
    ensures (r, col) in Step(es, col, s, e).cells && Step(es, col, s, e).cells[(r, col)] == a
    ensures (r, col + 1) in Step(es, col, s, e).cells && Step(es, col, s, e).cells[(r, col + 1)] == b
  {
    StepKeeps(es, col, s, e, (r, col));
    StepKeeps(es, col, s, e, (r, col + 1));
  }

  /** Pivot row i, once written, stays shown at LeafRow: later rows never overwrite it. */
  lemma {:induction false} WalkLeaf(es: seq<Entry>, n: nat, firstRow: int, col: int, i: nat)
    requires TwoLevel(es) && i < n <= |es|
    ensures LeafShown(es, i, firstRow, col, Walk(es, n, firstRow, col).cells)
  {
    if i < n - 1 {
      var s := Walk(es, n - 1, firstRow, col);
      var r := LeafRow(es, i, firstRow);
      WalkLeaf(es, n - 1, firstRow, col, i);
      WalkCounters(es, n - 1, firstRow, col);
      GroupStartsMonotone(es, i + 1, n - 1);
      PairKept(es, col, s, es[n - 1], r, Text(es[i].key[1]), Number(es[i].count));
      if IsGroupStart(es, i) {
        PairKept(es, col, s, es[n - 1], r - 1, Text(es[i].key[0]), Number(GroupTotal(es, es[i].key[0])));
      }
    } else {
      WalkLeafLast(es, n, firstRow, col);
    }
  }

  lemma {:induction false} TotalOfPrefix(es: seq<Entry>, n: nat)
    requires n < |es|
    ensures Total(es[..n + 1]) == Total(es[..n]) + es[n].count
  {
    if n > 0 {
      assert es[..n + 1][1..] == es[1..][..n];
      assert es[..n][1..] == es[1..][..n - 1];
      TotalOfPrefix(es[1..], n - 1);
    }
  }

  lemma {:induction false} GroupTotalSplit(es: seq<Entry>, g: string, n: nat)
    requires TwoLevel(es) && n <= |es|
    ensures GroupTotal(es, g) == GroupTotal(es[..n], g) + GroupTotal(es[n..], g)
  {
    if n > 0 {
      assert es[..n][1..] == es[1..][..n - 1];
      assert es[n..] == es[1..][n - 1..];
      GroupTotalSplit(es[1..], g, n - 1);
    }
  }

  lemma {:induction false} GroupTotalAbsent(es: seq<Entry>, g: string)
    requires TwoLevel(es)
    requires forall i :: 0 <= i < |es| ==> es[i].key[0] != g
    ensures GroupTotal(es, g) == 0
  {
    if es != [] {
      GroupTotalAbsent(es[1..], g);
    }
  }

  /**
   * For a contiguous pivot, the subtotals shown so far plus what is left of
   * the current group add up to the counts seen so far.
   */
  lemma {:induction false} SubtotalSumSoFar(es: seq<Entry>, n: nat)
    requires TwoLevel(es) && Contiguous(es) && n <= |es|
    ensures SubtotalSum(es, n) == Total(es[..n]) + (if n == 0 then 0 else GroupTotal(es[n..], es[n - 1].key[0]))
  {
    if n > 0 {
      var m := n - 1;
      var g := es[m].key[0];
      SubtotalSumSoFar(es, m);
      TotalOfPrefix(es, m);
      assert es[m..][1..] == es[n..];
      if IsGroupStart(es, m) {
        GroupTotalSplit(es, g, m);
        GroupTotalAbsent(es[..m], g);
        if m > 0 {
          GroupTotalAbsent(es[m..], es[m - 1].key[0]);
        }
      }
    }
  }

  /** For a contiguous pivot the grand total is the sum of all leaf counts. */
  lemma GrandTotalIsTotal(es: seq<Entry>, firstRow: int, col: int)
    requires TwoLevel(es) && Contiguous(es)
    ensures Walk(es, |es|, firstRow, col).grandTotal == Total(es)
  {
    WalkCounters(es, |es|, firstRow, col);
    SubtotalSumSoFar(es, |es|);
    assert es[..|es|] == es;
  }

  /** pandas sorts the index, so every group of a pivot is contiguous. */
  lemma SortedIsContiguous(es: seq<Entry>)
    requires TwoLevel(es) && Sorted(es)
    ensures Contiguous(es)
  {
    forall i, j, k | 0 <= i < j < k < |es| && es[i].key[0] == es[k].key[0]
      ensures es[j].key[0] == es[i].key[0]
    {
      var x, y := es[i].key[0], es[j].key[0];
      KeyLessFirstLevel(es[i].key, es[j].key);
      KeyLessFirstLevel(es[j].key, es[k].key);
      if x != y {
        StrLessTotal(x, y);
      }
    }
  }

  lemma {:induction false} GroupsSeenMembers(es: seq<Entry>, n: nat, g: string)
    requires TwoLevel(es) && n <= |es|
    ensures g in GroupsSeen(es, n) <==> exists i :: 0 <= i < n && es[i].key[0] == g
  {
    if n > 0 {
      GroupsSeenMembers(es, n - 1, g);
      if g in GroupsSeen(es, n - 1) {
        var i :| 0 <= i < n - 1 && es[i].key[0] == g;
        assert 0 <= i < n && es[i].key[0] == g;
      }
    }
  }

  /** For a contiguous pivot there is one subtotal row per distinct level-0 value. */
  lemma {:induction false} OneSubtotalPerGroup(es: seq<Entry>, n: nat)
    requires TwoLevel(es) && Contiguous(es) && n <= |es|
    ensures GroupStarts(es, n) == |GroupsSeen(es, n)|
  {
    if n > 0 {
      var m := n - 1;
      var g := es[m].key[0];
      OneSubtotalPerGroup(es, m);
      if IsGroupStart(es, m) {
        if g in GroupsSeen(es, m) {
          GroupsSeenMembers(es, m, g);
          assert false;
        }
      } else {
        assert g == es[m - 1].key[0];
        GroupsSeenMembers(es, m, g);
        assert g in GroupsSeen(es, m);
        assert GroupsSeen(es, n) == GroupsSeen(es, m);
      }
    }
  }

  // ---------------------------------------------------------------------
  // One written pivot, as a block of the sheet
  // ---------------------------------------------------------------------

  /** The walk of a pivot stops on the Grand Total row. */
  lemma PivotLastRow(p: Pivot, startRow: int, col: int, title: Option<string>)
    requires TwoLevel(p.entries)
    ensures LastRow(p, startRow, title) == Walk(p.entries, |p.entries|, HeaderRow(startRow, title) + 1, col).row
  {
    WalkCounters(p.entries, |p.entries|, HeaderRow(startRow, title) + 1, col);
  }

  /** The parts PivotCells puts together, named. */
  lemma PivotCellsAre(p: Pivot, startRow: int, col: int, title: Option<string>)
    returns (t: map<(int, int), Cell>, hd: map<(int, int), Cell>, w: WalkState)
    requires TwoLevel(p.entries)
    ensures t == TitleCells(startRow, col, title) && hd == HeaderCells(HeaderRow(startRow, title), col, ValueName(p))
    ensures w == Walk(p.entries, |p.entries|, HeaderRow(startRow, title) + 1, col)
    ensures PivotCells(p, startRow, col, title) == Assemble(t, hd, w, col)
  {
    var h := HeaderRow(startRow, title);
    t, hd, w := TitleCells(startRow, col, title), HeaderCells(h, col, ValueName(p)), Walk(p.entries, |p.entries|, h + 1, col);
  }

  /** The Grand Total row of an assembled block. */
  lemma AssembleGrand(t: map<(int, int), Cell>, hd: map<(int, int), Cell>, w: WalkState, col: int)
    ensures (w.row, col) in Assemble(t, hd, w, col) && Assemble(t, hd, w, col)[(w.row, col)] == Text("Grand Total")
    ensures (w.row, col + 1) in Assemble(t, hd, w, col) && Assemble(t, hd, w, col)[(w.row, col + 1)] == Number(w.grandTotal)
  {
  }

  /** A walked cell off the Grand Total row is kept in the assembled block. */
  lemma AssembleWalk(t: map<(int, int), Cell>, hd: map<(int, int), Cell>, w: WalkState, col: int, rc: (int, int))
    requires rc in w.cells && rc.0 != w.row
    ensures rc in Assemble(t, hd, w, col) && Assemble(t, hd, w, col)[rc] == w.cells[rc]
  {
  }

  /** Rows above the first walked row hold no walked cell. */
  lemma WalkAbove(es: seq<Entry>, firstRow: int, col: int, rc: (int, int))
    requires TwoLevel(es) && rc.0 < firstRow
    ensures rc !in Walk(es, |es|, firstRow, col).cells
  {
    WalkFootprint(es, |es|, firstRow, col);
  }

  /** Down to the header row, a pivot holds exactly its title and header cells. */
  lemma LiftHeadCell(p: Pivot, startRow: int, col: int, title: Option<string>, rc: (int, int))
    requires TwoLevel(p.entries) && rc.0 <= HeaderRow(startRow, title)
    ensures var head := TitleCells(startRow, col, title) + HeaderCells(HeaderRow(startRow, title), col, ValueName(p));
      && (rc in PivotCells(p, startRow, col, title) <==> rc in head)
      && (rc in head ==> PivotCells(p, startRow, col, title)[rc] == head[rc])
  {
    var h := HeaderRow(startRow, title);
    var t, hd, w := PivotCellsAre(p, startRow, col, title);
    PivotLastRow(p, startRow, col, title);
    WalkAbove(p.entries, h + 1, col, rc);
    AssembleIn(t, hd, w, col, rc);
  }


  /** Every pivot row lies below the header and above the Grand Total. */
  lemma LeafBeforeLast(p: Pivot, startRow: int, title: Option<string>, i: nat)
    requires TwoLevel(p.entries) && i < |p.entries|
    ensures HeaderRow(startRow, title) < LeafRow(p.entries, i, HeaderRow(startRow, title) + 1) < LastRow(p, startRow, title)
  {
    GroupStartsMonotone(p.entries, i + 1, |p.entries|);
  }

  /** A walked cell above the Grand Total row is written as the walk left it. */
  lemma LiftWalkCell(p: Pivot, startRow: int, col: int, title: Option<string>, rc: (int, int))
    requires TwoLevel(p.entries)
    requires rc in Walk(p.entries, |p.entries|, HeaderRow(startRow, title) + 1, col).cells
    requires rc.0 < LastRow(p, startRow, title)
    ensures rc in PivotCells(p, startRow, col, title)
    ensures PivotCells(p, startRow, col, title)[rc] == Walk(p.entries, |p.entries|, HeaderRow(startRow, title) + 1, col).cells[rc]
  {
    var t, hd, w := PivotCellsAre(p, startRow, col, title);
    PivotLastRow(p, startRow, col, title);
    AssembleWalk(t, hd, w, col, rc);
  }

  /** A walked cell, seen from the walk alone: in the pivot's columns, between its first row and where it stopped. */
  lemma WalkCellWithin(es: seq<Entry>, firstRow: int, col: int, rc: (int, int))
    requires TwoLevel(es) && rc in Walk(es, |es|, firstRow, col).cells
    ensures firstRow <= rc.0 < Walk(es, |es|, firstRow, col).row && (rc.1 == col || rc.1 == col + 1)
  {
    WalkFootprint(es, |es|, firstRow, col);
  }

  /** A row the walk has passed holds a cell in both pivot columns. */
  lemma WalkRowFilled(es: seq<Entry>, firstRow: int, col: int, q: int)
    requires TwoLevel(es) && firstRow <= q < Walk(es, |es|, firstRow, col).row
    ensures (q, col) in Walk(es, |es|, firstRow, col).cells && (q, col + 1) in Walk(es, |es|, firstRow, col).cells
  {
    WalkFootprint(es, |es|, firstRow, col);
  }

  /** Where a cell of an assembled block can be. */
  lemma AssembleIn(t: map<(int, int), Cell>, hd: map<(int, int), Cell>, w: WalkState, col: int, rc: (int, int))
    ensures rc in Assemble(t, hd, w, col) <==> rc in t || rc in hd || rc in w.cells || rc == (w.row, col) || rc == (w.row, col + 1)
  {
  }

  /** A pivot writes only its own two columns, from its start row down to the row returned. */
  lemma PivotCellWithin(p: Pivot, startRow: int, col: int, title: Option<string>, rc: (int, int))
    requires TwoLevel(p.entries) && rc in PivotCells(p, startRow, col, title)
    ensures startRow <= rc.0 <= LastRow(p, startRow, title) && (rc.1 == col || rc.1 == col + 1)
  {
    var h := HeaderRow(startRow, title);
    var t, hd, w := PivotCellsAre(p, startRow, col, title);
    PivotLastRow(p, startRow, col, title);
    AssembleIn(t, hd, w, col, rc);
    if rc in w.cells {
      WalkCellWithin(p.entries, h + 1, col, rc);
    }
  }

  /** Both columns are filled on every row from the header to the Grand Total. */
  lemma PivotRowFilled(p: Pivot, startRow: int, col: int, title: Option<string>, q: int)
    requires TwoLevel(p.entries) && HeaderRow(startRow, title) <= q <= LastRow(p, startRow, title)
    ensures (q, col) in PivotCells(p, startRow, col, title) && (q, col + 1) in PivotCells(p, startRow, col, title)
  {
    var h := HeaderRow(startRow, title);
    var t, hd, w := PivotCellsAre(p, startRow, col, title);
    PivotLastRow(p, startRow, col, title);
    AssembleIn(t, hd, w, col, (q, col));
    AssembleIn(t, hd, w, col, (q, col + 1));
    if h < q < w.row {
      WalkRowFilled(p.entries, h + 1, col, q);
    }
  }

  /** The header row holds "Row Labels" and the value column's name. */
  lemma PivotHeader(p: Pivot, startRow: int, col: int, title: Option<string>)
    requires TwoLevel(p.entries)
    ensures var h := HeaderRow(startRow, title);
      var cells := PivotCells(p, startRow, col, title);
      && (h, col) in cells && cells[(h, col)] == Text("Row Labels")
      && (h, col + 1) in cells && cells[(h, col + 1)] == Text(ValueName(p))
  {
    var h := HeaderRow(startRow, title);
    LiftHeadCell(p, startRow, col, title, (h, col));
    LiftHeadCell(p, startRow, col, title, (h, col + 1));
  }

  /** The row returned holds the "Grand Total" label. */
  lemma PivotGrandLabel(p: Pivot, startRow: int, col: int, title: Option<string>)
    requires TwoLevel(p.entries)
    ensures var last := LastRow(p, startRow, title);
      (last, col) in PivotCells(p, startRow, col, title) && PivotCells(p, startRow, col, title)[(last, col)] == Text("Grand Total")
  {
    var t, hd, w := PivotCellsAre(p, startRow, col, title);
    PivotLastRow(p, startRow, col, title);
    AssembleGrand(t, hd, w, col);
  }

  /** A title goes on the start row, and the row under it stays empty. */
  lemma PivotTitle(p: Pivot, startRow: int, col: int, title: Option<string>)
    requires TwoLevel(p.entries) && HasTitle(title)
    ensures var cells := PivotCells(p, startRow, col, title);
      && (startRow, col) in cells && cells[(startRow, col)] == Text(title.value)
      && (startRow + 1, col) !in cells && (startRow + 1, col + 1) !in cells
  {
    LiftHeadCell(p, startRow, col, title, (startRow, col));
    LiftHeadCell(p, startRow, col, title, (startRow + 1, col));
    LiftHeadCell(p, startRow, col, title, (startRow + 1, col + 1));
  }

  /** Pivot row i shows its level-1 label and its count on its computed row, below the header and above the Grand Total. */
  lemma PivotLeaf(p: Pivot, startRow: int, col: int, title: Option<string>, i: nat)
    requires TwoLevel(p.entries) && i < |p.entries|
    ensures var es := p.entries;
      var r := LeafRow(es, i, HeaderRow(startRow, title) + 1);
      var cells := PivotCells(p, startRow, col, title);
      && HeaderRow(startRow, title) < r < LastRow(p, startRow, title)
      && (r, col) in cells && cells[(r, col)] == Text(es[i].key[1])
      && (r, col + 1) in cells && cells[(r, col + 1)] == Number(es[i].count)
  {
    var es := p.entries;
    var h := HeaderRow(startRow, title);
    var r := LeafRow(es, i, h + 1);
    LeafBeforeLast(p, startRow, title, i);
    WalkLeaf(es, |es|, h + 1, col, i);
    LiftWalkCell(p, startRow, col, title, (r, col));
    LiftWalkCell(p, startRow, col, title, (r, col + 1));
  }

  /** A pivot row that opens a group has the group's name and total on the row above it. */
  lemma PivotSubtotal(p: Pivot, startRow: int, col: int, title: Option<string>, i: nat)
    requires TwoLevel(p.entries) && i < |p.entries| && IsGroupStart(p.entries, i)
    ensures var es := p.entries;
      var r := LeafRow(es, i, HeaderRow(startRow, title) + 1);
      var cells := PivotCells(p, startRow, col, title);
      && (r - 1, col) in cells && cells[(r - 1, col)] == Text(es[i].key[0])
      && (r - 1, col + 1) in cells && cells[(r - 1, col + 1)] == Number(GroupTotal(es, es[i].key[0]))
  {
    var es := p.entries;
    var h := HeaderRow(startRow, title);
    var r := LeafRow(es, i, h + 1);
    LeafBeforeLast(p, startRow, title, i);
    WalkLeaf(es, |es|, h + 1, col, i);
    LiftWalkCell(p, startRow, col, title, (r - 1, col));
    LiftWalkCell(p, startRow, col, title, (r - 1, col + 1));
  }

  /**
   * Because pandas sorts the index, each group is shown once and the Grand
   * Total is the sum of every count of the pivot.
   */
  lemma PivotTotals(p: Pivot, startRow: int, col: int, title: Option<string>)
    requires WellFormed(p) && |p.indexNames| == 2
    ensures var last := LastRow(p, startRow, title);
      && last == HeaderRow(startRow, title) + 1 + |p.entries| + |GroupsSeen(p.entries, |p.entries|)|
      && (last, col + 1) in PivotCells(p, startRow, col, title)
      && PivotCells(p, startRow, col, title)[(last, col + 1)] == Number(Total(p.entries))
  {
    var es := p.entries;
    var h := HeaderRow(startRow, title);
    var t, hd, w := PivotCellsAre(p, startRow, col, title);
    SortedIsContiguous(es);
    PivotLastRow(p, startRow, col, title);
    AssembleGrand(t, hd, w, col);
    OneSubtotalPerGroup(es, |es|);
    GrandTotalIsTotal(es, h + 1, col);
  }

  // ---------------------------------------------------------------------
  // write_pivot_tables_to_sheet
  // ---------------------------------------------------------------------

  /** Where one pivot goes on the Calculations sheet. */
  datatype Placement = Placement(name: string, col: int, title: string)

  /** The four pivots, left to right, in the order they are written; each starts on row 1. */
  const PLACEMENTS: seq<Placement> := [
    Placement("overdue", 1, "Filter: 'Aged' > 0"),
    Placement("due_date", 4, "Filter: 'Due Date' between 0-14 days (includes starting date)"),
    Placement("count_of_content", 8, "Filter: None Applied"),
    Placement("addressed_status", 11, "Filter: 'Status' == 'Addressed'")
  ]

  /** The first of the four names missing from the dict, in lookup order. */
  function FirstMissing(pivots: map<string, Pivot>): (m: Option<string>)
    ensures m.None? <==> forall j :: 0 <= j < |PLACEMENTS| ==> PLACEMENTS[j].name in pivots
    ensures m.Some? ==> exists j :: 0 <= j < |PLACEMENTS| && PLACEMENTS[j].name == m.value && PLACEMENTS[j].name !in pivots
                                    && forall k :: 0 <= k < j ==> PLACEMENTS[k].name in pivots
  {
    if PLACEMENTS[0].name !in pivots then Some(PLACEMENTS[0].name)
    else if PLACEMENTS[1].name !in pivots then Some(PLACEMENTS[1].name)
    else if PLACEMENTS[2].name !in pivots then Some(PLACEMENTS[2].name)
    else if PLACEMENTS[3].name !in pivots then Some(PLACEMENTS[3].name)
    else None
  }

  /** Every pivot of the dict is one pandas could have produced. */
  predicate AllWellFormed(pivots: map<string, Pivot>) {
    forall name :: name in pivots ==> WellFormed(pivots[name])
  }

  /** The pivot placed at position j. */
  function Placed(pivots: map<string, Pivot>, j: nat): Pivot
    requires FirstMissing(pivots).None? && j < |PLACEMENTS|
  {
    pivots[PLACEMENTS[j].name]
  }

  /** How many pivots, from the left, the writer accepts. */
  function WrittenPrefix(pivots: map<string, Pivot>, n: nat): (k: nat)
    requires FirstMissing(pivots).None? && n <= |PLACEMENTS|
    ensures k <= n
    ensures forall j :: 0 <= j < k ==> Writable(Placed(pivots, j))
    ensures k < n ==> !Writable(Placed(pivots, k))
  {
    if n == 0 then 0
    else
      var k := WrittenPrefix(pivots, n - 1);
      if k == n - 1 && Writable(Placed(pivots, n - 1)) then n else k
  }

  /** The cells written by the first n placements. */
  function SheetCells(pivots: map<string, Pivot>, n: nat): map<(int, int), Cell>
    requires FirstMissing(pivots).None? && AllWellFormed(pivots) && n <= |PLACEMENTS|
    requires forall j :: 0 <= j < n ==> |Placed(pivots, j).indexNames| == 2
  {
    if n == 0 then map[]
    else
      var pl := PLACEMENTS[n - 1];
      SheetCells(pivots, n - 1) + PivotCells(Placed(pivots, n - 1), 1, pl.col, Some(pl.title))
  }

  /** The row returned: the largest of 0 and the Grand Total rows of the first n pivots. */
  function FinalRow(pivots: map<string, Pivot>, n: nat): int
    requires FirstMissing(pivots).None? && AllWellFormed(pivots) && n <= |PLACEMENTS|
    requires forall j :: 0 <= j < n ==> |Placed(pivots, j).indexNames| == 2
  {
    if n == 0 then 0
    else Max(FinalRow(pivots, n - 1), LastRow(Placed(pivots, n - 1), 1, Some(PLACEMENTS[n - 1].title)))
  }

  function Max(a: int, b: int): (m: int)
    ensures m >= a && m >= b && (m == a || m == b)
  {
    if a >= b then a else b
  }

  /** Once a pivot is refused, no later pivot counts towards the written prefix. */
  lemma {:induction false} PrefixStops(pivots: map<string, Pivot>, k: nat, n: nat)
    requires FirstMissing(pivots).None? && k < n <= |PLACEMENTS|
    requires WrittenPrefix(pivots, k) == k && !Writable(Placed(pivots, k))
    ensures WrittenPrefix(pivots, n) == k
  {
    if n > k + 1 {
      PrefixStops(pivots, k, n - 1);
    }
  }

  /** Writing placement k after the first k extends the sheet by that pivot's cells. */
  lemma PlacementWritten(pivots: map<string, Pivot>, k: nat, o: map<(int, int), Cell>, cells: map<(int, int), Cell>)
    requires FirstMissing(pivots).None? && AllWellFormed(pivots) && k < |PLACEMENTS|
    requires WrittenPrefix(pivots, k) == k && Writable(Placed(pivots, k))
    requires cells == o + SheetCells(pivots, k) + PivotCells(Placed(pivots, k), 1, PLACEMENTS[k].col, Some(PLACEMENTS[k].title))
    ensures WrittenPrefix(pivots, k + 1) == k + 1
    ensures cells == o + SheetCells(pivots, k + 1)
  {
    MergeAssoc(o, SheetCells(pivots, k), PivotCells(Placed(pivots, k), 1, PLACEMENTS[k].col, Some(PLACEMENTS[k].title)));
  }

  /** The row returned grows by one pivot's Grand Total row at a time. */
  lemma PlacementRow(pivots: map<string, Pivot>, k: nat, before: int, last: int)
    requires FirstMissing(pivots).None? && AllWellFormed(pivots) && k < |PLACEMENTS|
    requires WrittenPrefix(pivots, k + 1) == k + 1
    requires before == FinalRow(pivots, k) && last == LastRow(Placed(pivots, k), 1, Some(PLACEMENTS[k].title))
    ensures Max(before, last) == FinalRow(pivots, k + 1)
  {
  }

  /** A refused placement leaves the prefix where it is. */
  lemma PlacementRefused(pivots: map<string, Pivot>, k: nat)
    requires FirstMissing(pivots).None? && k < |PLACEMENTS|
    requires WrittenPrefix(pivots, k) == k && !Writable(Placed(pivots, k))
    ensures WrittenPrefix(pivots, |PLACEMENTS|) == k
  {
    PrefixStops(pivots, k, |PLACEMENTS|);
  }

  /** The two-column spans of the four placements do not overlap: each ends left of the next. */
  lemma PlacementSpansDisjoint(i: nat, j: nat)
    requires i < j < |PLACEMENTS|
    ensures PLACEMENTS[i].col + 1 < PLACEMENTS[j].col
  {
  }

  /** A pivot written at column col has no cell left of col. */
  lemma PivotCellsRightOf(p: Pivot, startRow: int, col: int, title: Option<string>, rc: (int, int))
    requires TwoLevel(p.entries) && rc.1 < col
    ensures rc !in PivotCells(p, startRow, col, title)
  {
    if rc in PivotCells(p, startRow, col, title) {
      PivotCellWithin(p, startRow, col, title, rc);
      assert false;
    }
  }

  /**
   * Every cell a placed pivot writes is on the sheet with the value that
   * pivot gave it: no later pivot overwrites it.
   */
  lemma {:induction false} SheetKeepsEachPivot(pivots: map<string, Pivot>, n: nat, j: nat, rc: (int, int))
    requires FirstMissing(pivots).None? && AllWellFormed(pivots) && n <= |PLACEMENTS|
    requires forall k :: 0 <= k < n ==> |Placed(pivots, k).indexNames| == 2
    requires j < n && rc in PivotCells(Placed(pivots, j), 1, PLACEMENTS[j].col, Some(PLACEMENTS[j].title))
    ensures rc in SheetCells(pivots, n)
    ensures SheetCells(pivots, n)[rc] == PivotCells(Placed(pivots, j), 1, PLACEMENTS[j].col, Some(PLACEMENTS[j].title))[rc]
  {
    // The facts each call needs are restated first: the solver then finds
    // them without unfolding the cell maps.
    if j < n - 1 {
      SheetKeepsEachPivot(pivots, n - 1, j, rc);
      assert forall k :: 0 <= k < n ==> |Placed(pivots, k).indexNames| == 2;
      assert rc in PivotCells(Placed(pivots, j), 1, PLACEMENTS[j].col, Some(PLACEMENTS[j].title));
      assert rc in SheetCells(pivots, n - 1);
      LaterPivotKeepsCell(pivots, n, j, rc);
    } else {
      assert forall k :: 0 <= k < n ==> |Placed(pivots, k).indexNames| == 2;
      assert rc in PivotCells(Placed(pivots, j), 1, PLACEMENTS[j].col, Some(PLACEMENTS[j].title));
      LastPivotCell(pivots, n, j, rc);
    }
  }

  /** A cell already on the sheet and belonging to pivot j < n - 1 survives the pivot at n - 1. */
  lemma LaterPivotKeepsCell(pivots: map<string, Pivot>, n: nat, j: nat, rc: (int, int))
    requires FirstMissing(pivots).None? && AllWellFormed(pivots) && 0 < n <= |PLACEMENTS|
    requires forall k :: 0 <= k < n ==> |Placed(pivots, k).indexNames| == 2
    requires j < n - 1 && rc in PivotCells(Placed(pivots, j), 1, PLACEMENTS[j].col, Some(PLACEMENTS[j].title))
    requires rc in SheetCells(pivots, n - 1)
    ensures rc in SheetCells(pivots, n) && SheetCells(pivots, n)[rc] == SheetCells(pivots, n - 1)[rc]
  {
    SheetCellsStep(pivots, n);
    LaterPivotMissesCell(Placed(pivots, j), j, Placed(pivots, n - 1), n - 1, rc);
    UnionKeepsLeft(SheetCells(pivots, n - 1), PivotCells(Placed(pivots, n - 1), 1, PLACEMENTS[n - 1].col, Some(PLACEMENTS[n - 1].title)), rc);
  }

  /** Every cell of the pivot at j = n - 1 is on the sheet as that pivot wrote it. */
  lemma LastPivotCell(pivots: map<string, Pivot>, n: nat, j: nat, rc: (int, int))
    requires FirstMissing(pivots).None? && AllWellFormed(pivots) && 0 < n <= |PLACEMENTS|
    requires forall k :: 0 <= k < n ==> |Placed(pivots, k).indexNames| == 2
    requires j == n - 1 && rc in PivotCells(Placed(pivots, j), 1, PLACEMENTS[j].col, Some(PLACEMENTS[j].title))
    ensures rc in SheetCells(pivots, n)
    ensures SheetCells(pivots, n)[rc] == PivotCells(Placed(pivots, j), 1, PLACEMENTS[j].col, Some(PLACEMENTS[j].title))[rc]
  {
    SheetCellsStep(pivots, n);
    UnionTakesRight(SheetCells(pivots, n - 1), PivotCells(Placed(pivots, n - 1), 1, PLACEMENTS[n - 1].col, Some(PLACEMENTS[n - 1].title)), rc);
  }

  lemma SheetCellsStep(pivots: map<string, Pivot>, n: nat)
    requires FirstMissing(pivots).None? && AllWellFormed(pivots) && 0 < n <= |PLACEMENTS|
    requires forall k :: 0 <= k < n ==> |Placed(pivots, k).indexNames| == 2
    ensures SheetCells(pivots, n)
            == SheetCells(pivots, n - 1) + PivotCells(Placed(pivots, n - 1), 1, PLACEMENTS[n - 1].col, Some(PLACEMENTS[n - 1].title))
  {
  }

  /** A cell of the pivot at placement j is not written by the pivot at a later placement k. */
  lemma LaterPivotMissesCell(pj: Pivot, j: nat, pk: Pivot, k: nat, rc: (int, int))
    requires TwoLevel(pj.entries) && TwoLevel(pk.entries) && j < k < |PLACEMENTS|
    requires rc in PivotCells(pj, 1, PLACEMENTS[j].col, Some(PLACEMENTS[j].title))
    ensures rc !in PivotCells(pk, 1, PLACEMENTS[k].col, Some(PLACEMENTS[k].title))
  {
    PivotCellWithin(pj, 1, PLACEMENTS[j].col, Some(PLACEMENTS[j].title), rc);
    PlacementSpansDisjoint(j, k);
    PivotCellsRightOf(pk, 1, PLACEMENTS[k].col, Some(PLACEMENTS[k].title), rc);
  }

  lemma UnionTakesRight<K, V>(a: map<K, V>, b: map<K, V>, k: K)
    requires k in b
    ensures k in a + b && (a + b)[k] == b[k]
  {
  }

  lemma UnionKeepsLeft<K, V>(a: map<K, V>, b: map<K, V>, k: K)
    requires k in a && k !in b
    ensures k in a + b && (a + b)[k] == a[k]
  {
  }

  /** The row returned is the largest Grand Total row among the pivots written. */
  lemma {:induction false} FinalRowIsLargest(pivots: map<string, Pivot>, n: nat)
    requires FirstMissing(pivots).None? && AllWellFormed(pivots) && n <= |PLACEMENTS|
    requires forall k :: 0 <= k < n ==> |Placed(pivots, k).indexNames| == 2
    ensures forall j :: 0 <= j < n ==> LastRow(Placed(pivots, j), 1, Some(PLACEMENTS[j].title)) <= FinalRow(pivots, n)
    ensures n > 0 ==> exists j :: 0 <= j < n && FinalRow(pivots, n) == LastRow(Placed(pivots, j), 1, Some(PLACEMENTS[j].title))
  {
    if n > 0 {
      FinalRowIsLargest(pivots, n - 1);
      var last := LastRow(Placed(pivots, n - 1), 1, Some(PLACEMENTS[n - 1].title));
      assert FinalRow(pivots, n) == Max(FinalRow(pivots, n - 1), last);
      if n == 1 {
        assert last >= 0;
      }
    }
  }

  lemma MergeAssoc<K, V>(a: map<K, V>, b: map<K, V>, c: map<K, V>)
    ensures a + b + c == a + (b + c)
  {
  }

  /**
   * One block of the writer: pivot k of the placements goes at row 1 of its
   * column with its filter as title. The ghost parameters say which
   * placement this is and what the sheet held before the first one.
   */
  method WritePlacement(ws: Worksheet, pivot: Pivot, startCol: int, title: string,
                        ghost pivots: map<string, Pivot>, ghost k: nat, ghost o: map<(int, int), Cell>)
    returns (lastRow: Result<int, WriteError>)
    requires FirstMissing(pivots).None? && AllWellFormed(pivots) && k < |PLACEMENTS|
    requires pivot == Placed(pivots, k) && startCol == PLACEMENTS[k].col && title == PLACEMENTS[k].title
    requires WrittenPrefix(pivots, k) == k && ws.cells == o + SheetCells(pivots, k)
    modifies ws
    ensures lastRow.Err? ==> lastRow == Err(Refusal(Placed(pivots, k))) && ws.cells == old(ws.cells)
                             && WrittenPrefix(pivots, |PLACEMENTS|) == k
    ensures lastRow.Ok? ==> && WrittenPrefix(pivots, k + 1) == k + 1
                            && ws.cells == o + SheetCells(pivots, k + 1)
                            && lastRow.value == LastRow(Placed(pivots, k), 1, Some(PLACEMENTS[k].title))
  {
    lastRow := WriteMultiIndexPivot(ws, pivot, 1, startCol, Some(title));
    if lastRow.Err? {
      PlacementRefused(pivots, k);
    } else {
      PlacementWritten(pivots, k, o, ws.cells);
    }
  }

  /**
   * Look up the four pivots (a missing one raises KeyError before anything
   * is written), then write them at rows 1, columns 1, 4, 8 and 11, each
   * with its filter as title, and return the last row written. The first
   * pivot the writer rejects stops the writing; the pivots already
   * written stay on the sheet.
   */
  method WritePivotTablesToSheet(pivots: map<string, Pivot>, ws: Worksheet) returns (r: Result<int, WriteError>)
    requires AllWellFormed(pivots)
    modifies ws
    ensures FirstMissing(pivots).Some? ==> r == Err(MissingPivot(FirstMissing(pivots).value)) && ws.cells == old(ws.cells)
    ensures FirstMissing(pivots).None? ==>
      var n := WrittenPrefix(pivots, |PLACEMENTS|);
      && ws.cells == old(ws.cells) + SheetCells(pivots, n)
      && (n == |PLACEMENTS| ==> r == Ok(FinalRow(pivots, n)))
      && (n < |PLACEMENTS| ==> r == Err(Refusal(Placed(pivots, n))))
  {
    if "overdue" !in pivots { return Err(MissingPivot("overdue")); }
    var overduePivot := pivots["overdue"];
    if "due_date" !in pivots { return Err(MissingPivot("due_date")); }
    var dueDatePivot := pivots["due_date"];
    if "count_of_content" !in pivots { return Err(MissingPivot("count_of_content")); }
    var countOfContentPivot := pivots["count_of_content"];
    if "addressed_status" !in pivots { return Err(MissingPivot("addressed_status")); }
    var addressedStatusPivot := pivots["addressed_status"];
    assert FirstMissing(pivots).None?;
    ghost var o := ws.cells;

    var finalWrittenRow := 0;

    // Pivot 1: overdue
    var lastRow := WritePlacement(ws, overduePivot, 1, "Filter: 'Aged' > 0", pivots, 0, o);
    if lastRow.Err? { return Err(lastRow.error); }
    PlacementRow(pivots, 0, finalWrittenRow, lastRow.value);
    finalWrittenRow := Max(finalWrittenRow, lastRow.value);

    // Pivot 2: due within 0-14 days
    lastRow := WritePlacement(ws, dueDatePivot, 4, "Filter: 'Due Date' between 0-14 days (includes starting date)", pivots, 1, o);
    if lastRow.Err? { return Err(lastRow.error); }
    PlacementRow(pivots, 1, finalWrittenRow, lastRow.value);
    finalWrittenRow := Max(finalWrittenRow, lastRow.value);

    // Pivot 3: count of content
    lastRow := WritePlacement(ws, countOfContentPivot, 8, "Filter: None Applied", pivots, 2, o);
    if lastRow.Err? { return Err(lastRow.error); }
    PlacementRow(pivots, 2, finalWrittenRow, lastRow.value);
    finalWrittenRow := Max(finalWrittenRow, lastRow.value);

    // Pivot 4: addressed status
    lastRow := WritePlacement(ws, addressedStatusPivot, 11, "Filter: 'Status' == 'Addressed'", pivots, 3, o);
    if lastRow.Err? { return Err(lastRow.error); }
    PlacementRow(pivots, 3, finalWrittenRow, lastRow.value);
    finalWrittenRow := Max(finalWrittenRow, lastRow.value);

    return Ok(finalWrittenRow);
  }

  /**
   * A week without an overdue note: the overdue pivot has no value column,
   * so the writer stops at the first placement with the IndexError and puts
   * nothing on the sheet.
   */
  lemma NoOverdueNoteStopsSheet(dfs: Sources, baseDay: Option<int>, pivots: map<string, Pivot>)
    requires GetAllPivotTables(dfs, baseDay) == Ok(pivots)
    requires forall i :: 0 <= i < |dfs.reviewNoteAging.rows| ==>
               !(Admits(AgedAboveZero, dfs.reviewNoteAging.rows[i]) && NoteKey(ByAssignment, dfs.reviewNoteAging.rows[i]).Some?)
    ensures FirstMissing(pivots).None?
    ensures WrittenPrefix(pivots, |PLACEMENTS|) == 0 && Refusal(Placed(pivots, 0)) == NoValueColumn
  {
    FilteredPivotWithoutValueColumn(dfs.reviewNoteAging, 0);
    assert |pivots["overdue"].indexNames| == 2 && pivots["overdue"].columns == [];
    BuiltPivotsArePlaced(pivots);
    FirstPivotRefusedStopsSheet(pivots);
  }

  /** Every name the writer looks up is among the pivots the builders return. */
  lemma BuiltPivotsArePlaced(pivots: map<string, Pivot>)
    requires pivots.Keys == PIVOT_NAMES
    ensures FirstMissing(pivots).None?
  {
    assert "overdue" in PIVOT_NAMES && "due_date" in PIVOT_NAMES;
    assert "count_of_content" in PIVOT_NAMES && "addressed_status" in PIVOT_NAMES;
  }

  /** A first pivot without a value column stops the writer before anything is written. */
  lemma FirstPivotRefusedStopsSheet(pivots: map<string, Pivot>)
    requires FirstMissing(pivots).None?
    requires |pivots["overdue"].indexNames| == 2 && pivots["overdue"].columns == []
    ensures WrittenPrefix(pivots, |PLACEMENTS|) == 0 && Refusal(Placed(pivots, 0)) == NoValueColumn
  {
    assert !Writable(Placed(pivots, 0));
  }
}
