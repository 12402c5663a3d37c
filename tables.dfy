/**
 * The two summary tables placed under the pivots. They hold no numbers,
 * only Excel formula text: each row looks up one person of a pivot by
 * VLOOKUP over that pivot's rows, and the group rows ("Audit", "TA") are
 * blanked by an IF guard. A pivot's range is its "Row Labels" header row
 * and its Grand Total row.
 */
module Tables {
  import opened Wrappers
  import opened Decimal
  import Pivots
  import Writers

  /** `pivot_ranges[name]`: the header row and the Grand Total row of one written pivot. */
  datatype PivotRange = PivotRange(startRow: int, endRow: int)

  /** The dict a builder returns: "title", "header" and "rows". */
  datatype Table = Table(title: string, header: seq<string>, rows: seq<seq<string>>)

  /** The KeyError of a missing `pivot_ranges` entry. */
  datatype TableError = KeyError(key: string)

  const OPEN_TITLE_PREFIX: string := "All Open/Reopen Audit review notes to be addressed as of "
  const ADDRESSED_TITLE_PREFIX: string := "All Addressed review notes to be cleared as of "

  const OPEN_HEADER: seq<string> :=
    ["Assigned To", "Overdue", "Due Soon", "Pending", "Grand Total", "As of [PREV DATE]", "Difference"]
  const ADDRESSED_HEADER: seq<string> := ["Created By", "Addressed", "As of [PREV DATE]", "Difference"]

  /** The sheet columns the two tables start in (A and I). */
  const TABLE1_START_COL: int := 1
  const TABLE2_START_COL: int := 9

  // ---------------------------------------------------------------------
  // Formula text
  // ---------------------------------------------------------------------

  /** The letter of sheet column n, for the first 26 columns. */
  function ColumnLetter(n: int): (c: char)
    requires 1 <= n <= 26
    ensures 'A' <= c <= 'Z'
  {
    ('A' as int + n - 1) as char
  }

  /** A relative cell reference such as `A50`. */
  function Ref(col: char, row: int): string {
    [col] + IntToString(row)
  }

  /** An absolute range such as `$A$4:$B$24`. */
  function AbsRange(lo: char, s: int, hi: char, e: int): string {
    "$" + [lo] + "$" + IntToString(s) + ":$" + [hi] + "$" + IntToString(e)
  }

  const GUARD_OPEN: string := "=IF(OR("
  const IS_AUDIT: string := "=\"Audit\""

  /** `=IF(OR(X{r}="Audit",X{r}="TA"),` with the separator the source uses after the comma. */
  function Guard(g: char, r: int, sep: string): string {
    GUARD_OPEN + (Ref(g, r) + (IS_AUDIT + ("," + sep + Ref(g, r) + "=\"TA\"),")))
  }

  /** A formula blanked on the group rows of its own row r. */
  function Guarded(g: char, r: int, sep: string, tail: string): string {
    Guard(g, r, sep) + tail
  }

  /** The spacing the source leaves around the IF's arguments: none or one blank. */
  predicate Spacing(s: string) {
    s == "" || s == " "
  }

  /** The IF's then-branch, the empty text `""`, with its spacing on either side. */
  function Blank(before: string, after: string): string {
    before + "\"\"," + after
  }

  function LookupHead(g: char, r: int): string {
    "IFERROR(VLOOKUP(" + Ref(g, r) + ","
  }

  const LOOKUP_TAIL: string := ",2,FALSE), 0))"

  /** The value beside X{r} in table, 0 when it is not found. */
  function Lookup(g: char, r: int, table: string): string {
    LookupHead(g, r) + table + LOOKUP_TAIL
  }

  /** `=H{p3_row}`: a copy of a pivot's label cell. */
  function LabelCell(col: char, row: int): string {
    "=" + Ref(col, row)
  }

  function OverdueCell(r: int, s: int, e: int): string {
    Guarded('A', r, "", Blank(" ", " ") + Lookup('A', r, AbsRange('A', s, 'B', e)))
  }

  function DueSoonCell(r: int, s: int, e: int): string {
    Guarded('A', r, "", Blank("", "") + Lookup('A', r, AbsRange('D', s, 'E', e)))
  }

  /** Grand Total minus Due Soon minus Overdue, on the same row. */
  function PendingCell(r: int): string {
    Guarded('A', r, " ", Blank(" ", "") + (Ref('E', r) + "-" + Ref('C', r) + "-" + Ref('B', r)) + ")")
  }

  function GrandTotalCell(r: int, s: int, e: int): string {
    Guarded('A', r, "", Blank("", "") + Lookup('A', r, AbsRange('H', s, 'I', e)))
  }

  const PREV_DATE_RANGE: string := "PrevDate!$A$2:$B$36"

  function PrevDateCell(r: int): string {
    Guarded('A', r, "", Blank("", "") + Lookup('A', r, PREV_DATE_RANGE))
  }

  /** Grand Total minus the previous date's value, on the same row. */
  function OpenDifferenceCell(r: int): string {
    Guarded('A', r, "", Blank("", "") + (Ref('E', r) + "-" + Ref('F', r)) + ")")
  }

  function AddressedCell(r: int, s: int, e: int): string {
    Guarded('I', r, "", Blank(" ", " ") + Lookup('I', r, AbsRange('K', s, 'L', e)))
  }

  /** Addressed minus the previous date's value, on the same row. */
  function AddressedDifferenceCell(r: int): string {
    Guarded('I', r, "", Blank("", "") + (Ref('J', r) + "-" + Ref('K', r)) + ")")
  }

  // ---------------------------------------------------------------------
  // Reading a formula back
  // ---------------------------------------------------------------------

  /** Reads a cell reference such as `A50` at the start of s: the column letter, the row, the rest. */
  function ReadRef(s: string): (r: Option<(char, int, string)>)
    ensures r.Some? ==> 'A' <= r.value.0 <= 'Z'
  {
    if |s| > 0 && 'A' <= s[0] <= 'Z' then
      match ReadInt(s[1..])
      case Some((v, rest)) => Some((s[0], v, rest))
      case None => None
    else None
  }

  /** The cell a label formula `=X{n}` copies. */
  function LabelSource(cell: string): Option<(char, int)> {
    if |cell| > 0 && cell[0] == '=' then
      match ReadRef(cell[1..])
      case Some((c, v, rest)) => if rest == [] then Some((c, v)) else None
      case None => None
    else None
  }

  /** The cell whose group name blanks a formula `=IF(OR(X{n}="Audit",...`. */
  function GuardSource(cell: string): Option<(char, int)> {
    if |cell| >= |GUARD_OPEN| && cell[..|GUARD_OPEN|] == GUARD_OPEN then
      match ReadRef(cell[|GUARD_OPEN|..])
      case Some((c, v, rest)) => if |rest| >= |IS_AUDIT| && rest[..|IS_AUDIT|] == IS_AUDIT then Some((c, v)) else None
      case None => None
    else None
  }

  /** t occurs in s. */
  predicate Contains(s: string, t: string) {
    exists j :: 0 <= j <= |s| && t <= s[j..]
  }

  lemma ReadRefOf(c: char, row: int, rest: string)
    requires 'A' <= c <= 'Z' && (rest == [] || !IsDigit(rest[0]))
    ensures ReadRef(Ref(c, row) + rest) == Some((c, row, rest))
  {
    assert (Ref(c, row) + rest)[1..] == IntToString(row) + rest;
    ReadIntOf(row, rest);
  }

  /** A label formula reads back as the cell it copies. */
  lemma LabelSourceOf(c: char, row: int)
    requires 'A' <= c <= 'Z'
    ensures LabelSource(LabelCell(c, row)) == Some((c, row))
  {
    assert LabelCell(c, row)[1..] == Ref(c, row) + [];
    ReadRefOf(c, row, []);
  }

  /** A guarded formula reads back as guarded by the cell it names. */
  lemma GuardSourceAt(g: char, r: int, rest: string)
    requires 'A' <= g <= 'Z' && IS_AUDIT <= rest
    ensures GuardSource(GUARD_OPEN + (Ref(g, r) + rest)) == Some((g, r))
  {
    var cell := GUARD_OPEN + (Ref(g, r) + rest);
    assert cell[..|GUARD_OPEN|] == GUARD_OPEN;
    assert cell[|GUARD_OPEN|..] == Ref(g, r) + rest;
    assert rest[0] == IS_AUDIT[0];
    ReadRefOf(g, r, rest);
  }

  lemma GuardSourceOf(g: char, r: int, sep: string, tail: string)
    requires 'A' <= g <= 'Z'
    ensures GuardSource(Guarded(g, r, sep, tail)) == Some((g, r))
  {
    var rest := IS_AUDIT + ("," + sep + Ref(g, r) + "=\"TA\"),") + tail;
    assert Guarded(g, r, sep, tail) == GUARD_OPEN + (Ref(g, r) + rest);
    GuardSourceAt(g, r, rest);
  }

  // ---------------------------------------------------------------------
  // Rows and tables
  // ---------------------------------------------------------------------

  /**
   * `range(end_row - (start_row + 1) + 1)`: one table row per pivot row
   * below the header, down to and including the Grand Total row; none
   * when the count is not positive.
   */
  function RowCount(p: PivotRange): nat {
    if p.endRow - p.startRow > 0 then p.endRow - p.startRow else 0
  }

  /** The sheet row of table row i: below the title row and the header row. */
  function SheetRow(startRow: int, i: int): int {
    startRow + 2 + i
  }

  /**
   * Row rowVal of the open-notes table, the seven cells in column order:
   * it sits on sheet row current_row and copies row p3_row of the
   * count_of_content pivot.
   */
  function OpenRow(p1: PivotRange, p2: PivotRange, p3: PivotRange, startRow: int, rowVal: int): seq<string> {
    var headerRow := startRow + 1;
    var currentRow := headerRow + 1 + rowVal;
    var p3Row := p3.startRow + 1 + rowVal;
    [ LabelCell('H', p3Row),
      OverdueCell(currentRow, p1.startRow + 1, p1.endRow),
      DueSoonCell(currentRow, p2.startRow + 1, p2.endRow),
      PendingCell(currentRow),
      GrandTotalCell(currentRow, p3.startRow + 1, p3.endRow),
      PrevDateCell(currentRow),
      OpenDifferenceCell(currentRow) ]
  }

  /** Row rowVal of the addressed-notes table, the four cells in column order. */
  function AddressedRow(p4: PivotRange, startRow: int, rowVal: int): seq<string> {
    var headerRow := startRow + 1;
    var currentRow := headerRow + 1 + rowVal;
    var p4Row := p4.startRow + 1 + rowVal;
    [ LabelCell('K', p4Row),
      AddressedCell(currentRow, p4.startRow + 1, p4.endRow),
      "",
      AddressedDifferenceCell(currentRow) ]
  }

  /** The first n rows of the open-notes table. */
  function OpenRows(p1: PivotRange, p2: PivotRange, p3: PivotRange, startRow: int, n: nat): (rows: seq<seq<string>>)
    ensures |rows| == n
    ensures forall i :: 0 <= i < n ==> rows[i] == OpenRow(p1, p2, p3, startRow, i)
  {
    if n == 0 then [] else OpenRows(p1, p2, p3, startRow, n - 1) + [OpenRow(p1, p2, p3, startRow, n - 1)]
  }

  /** The first n rows of the addressed-notes table. */
  function AddressedRows(p4: PivotRange, startRow: int, n: nat): (rows: seq<seq<string>>)
    ensures |rows| == n
    ensures forall i :: 0 <= i < n ==> rows[i] == AddressedRow(p4, startRow, i)
  {
    if n == 0 then [] else AddressedRows(p4, startRow, n - 1) + [AddressedRow(p4, startRow, n - 1)]
  }

  /** What build_open_review_notes_table returns, or the KeyError it raises. */
  function OpenNotesTable(baseDateStr: string, pivotRanges: map<string, PivotRange>, startRow: int): (r: Result<Table, TableError>)
    ensures "overdue" !in pivotRanges ==> r == Err(KeyError("overdue"))
    ensures "overdue" in pivotRanges && "due_date" !in pivotRanges ==> r == Err(KeyError("due_date"))
    ensures "overdue" in pivotRanges && "due_date" in pivotRanges && "count_of_content" !in pivotRanges ==>
              r == Err(KeyError("count_of_content"))
    ensures r.Ok? <==> "overdue" in pivotRanges && "due_date" in pivotRanges && "count_of_content" in pivotRanges
    ensures r.Ok? ==> && r.value.title == OPEN_TITLE_PREFIX + baseDateStr
                      && r.value.header == OPEN_HEADER
                      && |r.value.rows| == RowCount(pivotRanges["count_of_content"])
                      && forall i :: 0 <= i < |r.value.rows| ==> |r.value.rows[i]| == |OPEN_HEADER|
  {
    if "overdue" !in pivotRanges then Err(KeyError("overdue"))
    else if "due_date" !in pivotRanges then Err(KeyError("due_date"))
    else if "count_of_content" !in pivotRanges then Err(KeyError("count_of_content"))
    else
      var p1, p2, p3 := pivotRanges["overdue"], pivotRanges["due_date"], pivotRanges["count_of_content"];
      Ok(Table(OPEN_TITLE_PREFIX + baseDateStr, OPEN_HEADER, OpenRows(p1, p2, p3, startRow, RowCount(p3))))
  }

  /** What build_addressed_review_notes_table returns, or the KeyError it raises. */
  function AddressedNotesTable(baseDateStr: string, pivotRanges: map<string, PivotRange>, startRow: int): (r: Result<Table, TableError>)
    ensures r.Err? <==> "addressed_status" !in pivotRanges
    ensures r.Err? ==> r.error == KeyError("addressed_status")
    ensures r.Ok? ==> && r.value.title == ADDRESSED_TITLE_PREFIX + baseDateStr
                      && r.value.header == ADDRESSED_HEADER
                      && |r.value.rows| == RowCount(pivotRanges["addressed_status"])
                      && forall i :: 0 <= i < |r.value.rows| ==> |r.value.rows[i]| == |ADDRESSED_HEADER|
  {
    if "addressed_status" !in pivotRanges then Err(KeyError("addressed_status"))
    else
      var p4 := pivotRanges["addressed_status"];
      Ok(Table(ADDRESSED_TITLE_PREFIX + baseDateStr, ADDRESSED_HEADER, AddressedRows(p4, startRow, RowCount(p4))))
  }

  // ---------------------------------------------------------------------
  // What the cells say
  // ---------------------------------------------------------------------

  /**
   * cell shows `""` on the group rows of X{r} (X = g) and otherwise the
   * value beside X{r} in table, or 0 where there is none:
   * `IF(OR(X{r}="Audit",X{r}="TA"),"",IFERROR(VLOOKUP(X{r},table,2,FALSE), 0))`,
   * up to the blanks the source leaves around the arguments.
   */
  ghost predicate LooksUp(cell: string, g: char, r: int, table: string) {
    exists sep, before, after :: Spacing(sep) && Spacing(before) && Spacing(after)
      && cell == Guarded(g, r, sep, Blank(before, after) + Lookup(g, r, table))
  }

  /** cell shows `""` on the group rows of X{r} and otherwise computes diff: `IF(OR(..),"",diff)`. */
  ghost predicate Computes(cell: string, g: char, r: int, diff: string) {
    exists sep, before, after :: Spacing(sep) && Spacing(before) && Spacing(after)
      && cell == Guarded(g, r, sep, Blank(before, after) + diff + ")")
  }

  lemma LooksUpWith(g: char, r: int, table: string, sep: string, before: string, after: string)
    requires Spacing(sep) && Spacing(before) && Spacing(after)
    ensures LooksUp(Guarded(g, r, sep, Blank(before, after) + Lookup(g, r, table)), g, r, table)
  {
  }

  lemma ComputesWith(g: char, r: int, diff: string, sep: string, before: string, after: string)
    requires Spacing(sep) && Spacing(before) && Spacing(after)
    ensures Computes(Guarded(g, r, sep, Blank(before, after) + diff + ")"), g, r, diff)
  {
  }

  lemma ContainsSelf(t: string)
    ensures Contains(t, t)
  {
    assert t <= t[0..];
  }

  lemma ContainsAfter(a: string, s: string, t: string)
    requires Contains(s, t)
    ensures Contains(a + s, t)
  {
    var j :| 0 <= j <= |s| && t <= s[j..];
    assert (a + s)[|a| + j..] == s[j..];
  }

  lemma ContainsBefore(s: string, b: string, t: string)
    requires Contains(s, t)
    ensures Contains(s + b, t)
  {
    var j :| 0 <= j <= |s| && t <= s[j..];
    assert (s + b)[j..] == s[j..] + b;
  }

  /** A lookup formula reads back as guarded by X{r}, and the range it searches occurs in it. */
  lemma LooksUpReads(cell: string, g: char, r: int, table: string)
    requires 'A' <= g <= 'Z' && LooksUp(cell, g, r, table)
    ensures GuardSource(cell) == Some((g, r))
    ensures Contains(cell, table)
  {
    var sep, before, after :| Spacing(sep) && Spacing(before) && Spacing(after)
      && cell == Guarded(g, r, sep, Blank(before, after) + Lookup(g, r, table));
    var pre := Blank(before, after);
    GuardSourceOf(g, r, sep, pre + Lookup(g, r, table));
    ContainsSelf(table);
    ContainsAfter(LookupHead(g, r), table, table);
    ContainsBefore(LookupHead(g, r) + table, LOOKUP_TAIL, table);
    ContainsAfter(pre, Lookup(g, r, table), table);
    ContainsAfter(Guard(g, r, sep), pre + Lookup(g, r, table), table);
  }

  /** An arithmetic formula reads back as guarded by X{r}, and its expression occurs in it. */
  lemma ComputesReads(cell: string, g: char, r: int, diff: string)
    requires 'A' <= g <= 'Z' && Computes(cell, g, r, diff)
    ensures GuardSource(cell) == Some((g, r))
    ensures Contains(cell, diff)
  {
    var sep, before, after :| Spacing(sep) && Spacing(before) && Spacing(after)
      && cell == Guarded(g, r, sep, Blank(before, after) + diff + ")");
    var pre := Blank(before, after);
    GuardSourceOf(g, r, sep, pre + diff + ")");
    ContainsSelf(diff);
    ContainsAfter(pre, diff, diff);
    ContainsBefore(pre + diff, ")", diff);
    ContainsAfter(Guard(g, r, sep), pre + diff + ")", diff);
  }

  /**
   * The letters written into the formulas are the columns the writer puts
   * the four pivots in, each two columns wide, and the columns the tables'
   * own header names head.
   */
  lemma HardCodedColumns()
    ensures Writers.PLACEMENTS[0].name == "overdue" && ColumnLetter(Writers.PLACEMENTS[0].col) == 'A'
            && ColumnLetter(Writers.PLACEMENTS[0].col + 1) == 'B'
    ensures Writers.PLACEMENTS[1].name == "due_date" && ColumnLetter(Writers.PLACEMENTS[1].col) == 'D'
            && ColumnLetter(Writers.PLACEMENTS[1].col + 1) == 'E'
    ensures Writers.PLACEMENTS[2].name == "count_of_content" && ColumnLetter(Writers.PLACEMENTS[2].col) == 'H'
            && ColumnLetter(Writers.PLACEMENTS[2].col + 1) == 'I'
    ensures Writers.PLACEMENTS[3].name == "addressed_status" && ColumnLetter(Writers.PLACEMENTS[3].col) == 'K'
            && ColumnLetter(Writers.PLACEMENTS[3].col + 1) == 'L'
    ensures ColumnLetter(TABLE1_START_COL) == 'A' && ColumnLetter(TABLE2_START_COL) == 'I'
    ensures OPEN_HEADER[1] == "Overdue" && ColumnLetter(TABLE1_START_COL + 1) == 'B'
    ensures OPEN_HEADER[2] == "Due Soon" && ColumnLetter(TABLE1_START_COL + 2) == 'C'
    ensures OPEN_HEADER[4] == "Grand Total" && ColumnLetter(TABLE1_START_COL + 4) == 'E'
    ensures OPEN_HEADER[5] == "As of [PREV DATE]" && ColumnLetter(TABLE1_START_COL + 5) == 'F'
    ensures ADDRESSED_HEADER[1] == "Addressed" && ColumnLetter(TABLE2_START_COL + 1) == 'J'
    ensures ADDRESSED_HEADER[2] == "As of [PREV DATE]" && ColumnLetter(TABLE2_START_COL + 2) == 'K'
  {
  }

  // ---------------------------------------------------------------------
  // What the rows say, column by column
  // ---------------------------------------------------------------------

  /**
   * Open-notes row i has one cell per header name, and its label copies
   * row p3.start_row + 1 + i of column H, the count_of_content pivot's
   * label column.
   */
  lemma OpenRowLabel(p1: PivotRange, p2: PivotRange, p3: PivotRange, startRow: int, i: int)
    ensures |OpenRow(p1, p2, p3, startRow, i)| == |OPEN_HEADER|
    ensures LabelSource(OpenRow(p1, p2, p3, startRow, i)[0]) == Some(('H', p3.startRow + 1 + i))
  {
    LabelSourceOf('H', p3.startRow + 1 + i);
  }

  /** Overdue: looks the label up in the overdue pivot, `$A$s:$B$e`, from below its header through its Grand Total row. */
  lemma OpenRowOverdue(p1: PivotRange, p2: PivotRange, p3: PivotRange, startRow: int, i: int)
    ensures LooksUp(OpenRow(p1, p2, p3, startRow, i)[1], 'A', SheetRow(startRow, i), AbsRange('A', p1.startRow + 1, 'B', p1.endRow))
  {
    assert OpenRow(p1, p2, p3, startRow, i)[1] == OverdueCell(SheetRow(startRow, i), p1.startRow + 1, p1.endRow);
    LooksUpWith('A', SheetRow(startRow, i), AbsRange('A', p1.startRow + 1, 'B', p1.endRow), "", " ", " ");
  }

  /** Due Soon: looks the label up in the due_date pivot, `$D$s:$E$e`. */
  lemma OpenRowDueSoon(p1: PivotRange, p2: PivotRange, p3: PivotRange, startRow: int, i: int)
    ensures LooksUp(OpenRow(p1, p2, p3, startRow, i)[2], 'A', SheetRow(startRow, i), AbsRange('D', p2.startRow + 1, 'E', p2.endRow))
  {
    assert OpenRow(p1, p2, p3, startRow, i)[2] == DueSoonCell(SheetRow(startRow, i), p2.startRow + 1, p2.endRow);
    LooksUpWith('A', SheetRow(startRow, i), AbsRange('D', p2.startRow + 1, 'E', p2.endRow), "", "", "");
  }

  /** Pending: Grand Total minus Due Soon minus Overdue of the same sheet row. */
  lemma OpenRowPending(p1: PivotRange, p2: PivotRange, p3: PivotRange, startRow: int, i: int)
    ensures var r := SheetRow(startRow, i);
      Computes(OpenRow(p1, p2, p3, startRow, i)[3], 'A', r, Ref('E', r) + "-" + Ref('C', r) + "-" + Ref('B', r))
  {
    var r := SheetRow(startRow, i);
    assert OpenRow(p1, p2, p3, startRow, i)[3] == PendingCell(r);
    ComputesWith('A', r, Ref('E', r) + "-" + Ref('C', r) + "-" + Ref('B', r), " ", " ", "");
  }

  /** Grand Total: looks the label up in the count_of_content pivot, `$H$s:$I$e`. */
  lemma OpenRowGrandTotal(p1: PivotRange, p2: PivotRange, p3: PivotRange, startRow: int, i: int)
    ensures LooksUp(OpenRow(p1, p2, p3, startRow, i)[4], 'A', SheetRow(startRow, i), AbsRange('H', p3.startRow + 1, 'I', p3.endRow))
  {
    assert OpenRow(p1, p2, p3, startRow, i)[4] == GrandTotalCell(SheetRow(startRow, i), p3.startRow + 1, p3.endRow);
    LooksUpWith('A', SheetRow(startRow, i), AbsRange('H', p3.startRow + 1, 'I', p3.endRow), "", "", "");
  }

  /** As of the previous date: looks the label up in a fixed range of the PrevDate sheet. */
  lemma OpenRowPrevDate(p1: PivotRange, p2: PivotRange, p3: PivotRange, startRow: int, i: int)
    ensures LooksUp(OpenRow(p1, p2, p3, startRow, i)[5], 'A', SheetRow(startRow, i), PREV_DATE_RANGE)
  {
    assert OpenRow(p1, p2, p3, startRow, i)[5] == PrevDateCell(SheetRow(startRow, i));
    LooksUpWith('A', SheetRow(startRow, i), PREV_DATE_RANGE, "", "", "");
  }

  /** Difference: Grand Total minus the previous date's value, of the same sheet row. */
  lemma OpenRowDifference(p1: PivotRange, p2: PivotRange, p3: PivotRange, startRow: int, i: int)
    ensures var r := SheetRow(startRow, i);
      Computes(OpenRow(p1, p2, p3, startRow, i)[6], 'A', r, Ref('E', r) + "-" + Ref('F', r))
  {
    var r := SheetRow(startRow, i);
    assert OpenRow(p1, p2, p3, startRow, i)[6] == OpenDifferenceCell(r);
    ComputesWith('A', r, Ref('E', r) + "-" + Ref('F', r), "", "", "");
  }

  /**
   * Addressed-notes row i has one cell per header name, its label copies
   * row p4.start_row + 1 + i of column K, the addressed_status pivot's
   * label column, and its third cell is empty.
   */
  lemma AddressedRowLabel(p4: PivotRange, startRow: int, i: int)
    ensures |AddressedRow(p4, startRow, i)| == |ADDRESSED_HEADER|
    ensures LabelSource(AddressedRow(p4, startRow, i)[0]) == Some(('K', p4.startRow + 1 + i))
    ensures AddressedRow(p4, startRow, i)[2] == ""
  {
    LabelSourceOf('K', p4.startRow + 1 + i);
  }

  /** Addressed: blanked by I{r}, looks the label up in the addressed_status pivot, `$K$s:$L$e`. */
  lemma AddressedRowAddressed(p4: PivotRange, startRow: int, i: int)
    ensures LooksUp(AddressedRow(p4, startRow, i)[1], 'I', SheetRow(startRow, i), AbsRange('K', p4.startRow + 1, 'L', p4.endRow))
  {
    assert AddressedRow(p4, startRow, i)[1] == AddressedCell(SheetRow(startRow, i), p4.startRow + 1, p4.endRow);
    LooksUpWith('I', SheetRow(startRow, i), AbsRange('K', p4.startRow + 1, 'L', p4.endRow), "", " ", " ");
  }

  /** Difference: Addressed minus the previous date's value, of the same sheet row. */
  lemma AddressedRowDifference(p4: PivotRange, startRow: int, i: int)
    ensures var r := SheetRow(startRow, i);
      Computes(AddressedRow(p4, startRow, i)[3], 'I', r, Ref('J', r) + "-" + Ref('K', r))
  {
    var r := SheetRow(startRow, i);
    assert AddressedRow(p4, startRow, i)[3] == AddressedDifferenceCell(r);
    ComputesWith('I', r, Ref('J', r) + "-" + Ref('K', r), "", "", "");
  }

  /**
   * The open-notes row read against the writer's placements and the table's
   * own header: every formula is blanked by the table's first column; the
   * label copies the count_of_content pivot's label column; Overdue, Due
   * Soon and Grand Total look up over exactly the two columns the writer
   * gave the overdue, due_date and count_of_content pivots; Pending and
   * Difference subtract the columns headed "Grand Total", "Due Soon",
   * "Overdue" and "As of [PREV DATE]".
   */
  lemma OpenRowColumnsAgree(p1: PivotRange, p2: PivotRange, p3: PivotRange, startRow: int, i: int)
    ensures var row := OpenRow(p1, p2, p3, startRow, i);
      var r := SheetRow(startRow, i);
      var g := ColumnLetter(TABLE1_START_COL);
      var pl := Writers.PLACEMENTS;
      && pl[0].name == "overdue" && pl[1].name == "due_date" && pl[2].name == "count_of_content"
      && OPEN_HEADER[1] == "Overdue" && OPEN_HEADER[2] == "Due Soon"
      && OPEN_HEADER[4] == "Grand Total" && OPEN_HEADER[5] == "As of [PREV DATE]"
      && LabelSource(row[0]) == Some((ColumnLetter(pl[2].col), p3.startRow + 1 + i))
      && LooksUp(row[1], g, r, AbsRange(ColumnLetter(pl[0].col), p1.startRow + 1, ColumnLetter(pl[0].col + 1), p1.endRow))
      && LooksUp(row[2], g, r, AbsRange(ColumnLetter(pl[1].col), p2.startRow + 1, ColumnLetter(pl[1].col + 1), p2.endRow))
      && Computes(row[3], g, r, Ref(ColumnLetter(TABLE1_START_COL + 4), r) + "-" + Ref(ColumnLetter(TABLE1_START_COL + 2), r)
                                + "-" + Ref(ColumnLetter(TABLE1_START_COL + 1), r))
      && LooksUp(row[4], g, r, AbsRange(ColumnLetter(pl[2].col), p3.startRow + 1, ColumnLetter(pl[2].col + 1), p3.endRow))
      && Computes(row[6], g, r, Ref(ColumnLetter(TABLE1_START_COL + 4), r) + "-" + Ref(ColumnLetter(TABLE1_START_COL + 5), r))
  {
    HardCodedColumns();
    OpenRowLabel(p1, p2, p3, startRow, i);
    OpenRowOverdue(p1, p2, p3, startRow, i);
    OpenRowDueSoon(p1, p2, p3, startRow, i);
    OpenRowPending(p1, p2, p3, startRow, i);
    OpenRowGrandTotal(p1, p2, p3, startRow, i);
    OpenRowDifference(p1, p2, p3, startRow, i);
  }

  /**
   * The addressed-notes row read against the writer's placements and the
   * table's own header: blanked by the table's first column, its label and
   * its lookup range over the addressed_status pivot's two columns, and
   * Difference subtracts the column headed "As of [PREV DATE]" from the one
   * headed "Addressed".
   */
  lemma AddressedRowColumnsAgree(p4: PivotRange, startRow: int, i: int)
    ensures var row := AddressedRow(p4, startRow, i);
      var r := SheetRow(startRow, i);
      var g := ColumnLetter(TABLE2_START_COL);
      var pl := Writers.PLACEMENTS[3];
      && pl.name == "addressed_status"
      && ADDRESSED_HEADER[1] == "Addressed" && ADDRESSED_HEADER[2] == "As of [PREV DATE]"
      && LabelSource(row[0]) == Some((ColumnLetter(pl.col), p4.startRow + 1 + i))
      && LooksUp(row[1], g, r, AbsRange(ColumnLetter(pl.col), p4.startRow + 1, ColumnLetter(pl.col + 1), p4.endRow))
      && Computes(row[3], g, r, Ref(ColumnLetter(TABLE2_START_COL + 1), r) + "-" + Ref(ColumnLetter(TABLE2_START_COL + 2), r))
  {
    HardCodedColumns();
    AddressedRowLabel(p4, startRow, i);
    AddressedRowAddressed(p4, startRow, i);
    AddressedRowDifference(p4, startRow, i);
  }

  // ---------------------------------------------------------------------
  // What the tables cover
  // ---------------------------------------------------------------------

  /**
   * Row i of the open-notes table copies the label of count_of_content row
   * p3.start_row + 1 + i, which lies below that pivot's header and no lower
   * than its Grand Total row; with one row per such pivot row, the last
   * row copies the Grand Total row.
   */
  lemma OpenTableRowLabel(baseDateStr: string, pivotRanges: map<string, PivotRange>, startRow: int, i: int)
    requires OpenNotesTable(baseDateStr, pivotRanges, startRow).Ok?
    requires 0 <= i < |OpenNotesTable(baseDateStr, pivotRanges, startRow).value.rows|
    ensures var rows := OpenNotesTable(baseDateStr, pivotRanges, startRow).value.rows;
      var p3 := pivotRanges["count_of_content"];
      var q := p3.startRow + 1 + i;
      && |rows[i]| == |OPEN_HEADER|
      && LabelSource(rows[i][0]) == Some(('H', q))
      && p3.startRow < q <= p3.endRow
      && (i == |rows| - 1 <==> q == p3.endRow)
  {
    OpenRowLabel(pivotRanges["overdue"], pivotRanges["due_date"], pivotRanges["count_of_content"], startRow, i);
  }

  /**
   * Row i of the addressed-notes table copies the label of addressed_status
   * row p4.start_row + 1 + i, which lies below that pivot's header and no
   * lower than its Grand Total row; the last row copies the Grand Total row.
   */
  lemma AddressedTableRowLabel(baseDateStr: string, pivotRanges: map<string, PivotRange>, startRow: int, i: int)
    requires AddressedNotesTable(baseDateStr, pivotRanges, startRow).Ok?
    requires 0 <= i < |AddressedNotesTable(baseDateStr, pivotRanges, startRow).value.rows|
    ensures var rows := AddressedNotesTable(baseDateStr, pivotRanges, startRow).value.rows;
      var p4 := pivotRanges["addressed_status"];
      var q := p4.startRow + 1 + i;
      && |rows[i]| == |ADDRESSED_HEADER|
      && LabelSource(rows[i][0]) == Some(('K', q))
      && p4.startRow < q <= p4.endRow
      && (i == |rows| - 1 <==> q == p4.endRow)
  {
    AddressedRowLabel(pivotRanges["addressed_status"], startRow, i);
  }

  /** The range of a pivot the writer placed: its "Row Labels" row and its Grand Total row. */
  function WrittenRange(p: Pivots.Pivot, pl: Writers.Placement): (range: PivotRange)
    requires Writers.TwoLevel(p.entries)
    ensures range.startRow < range.endRow
  {
    PivotRange(Writers.HeaderRow(1, Some(pl.title)), Writers.LastRow(p, 1, Some(pl.title)))
  }

  /**
   * Over the range of the count_of_content pivot as the writer placed it,
   * every label of the open-notes table copies a cell the writer filled,
   * and the last one copies its "Grand Total" label.
   */
  lemma OpenLabelsInWrittenPivot(p: Pivots.Pivot, p1: PivotRange, p2: PivotRange, startRow: int, i: int)
    requires Writers.TwoLevel(p.entries)
    requires 0 <= i < RowCount(WrittenRange(p, Writers.PLACEMENTS[2]))
    ensures var pl := Writers.PLACEMENTS[2];
      var p3 := WrittenRange(p, pl);
      var q := p3.startRow + 1 + i;
      var cells := Writers.PivotCells(p, 1, pl.col, Some(pl.title));
      && LabelSource(OpenRow(p1, p2, p3, startRow, i)[0]) == Some((ColumnLetter(pl.col), q))
      && (q, pl.col) in cells
      && (q == p3.endRow ==> cells[(q, pl.col)] == Writers.Text("Grand Total"))
  {
    var pl := Writers.PLACEMENTS[2];
    var p3 := WrittenRange(p, pl);
    OpenRowLabel(p1, p2, p3, startRow, i);
    Writers.PivotRowFilled(p, 1, pl.col, Some(pl.title), p3.startRow + 1 + i);
    Writers.PivotGrandLabel(p, 1, pl.col, Some(pl.title));
  }

  // ---------------------------------------------------------------------
  // The builders
  // ---------------------------------------------------------------------

  /** build_open_review_notes_table: one row of seven formulas per count_of_content row. */
  method BuildOpenReviewNotesTable(baseDateStr: string, pivotRanges: map<string, PivotRange>, startRow: int)
    returns (r: Result<Table, TableError>)
    ensures r == OpenNotesTable(baseDateStr, pivotRanges, startRow)
  {
    var title := OPEN_TITLE_PREFIX + baseDateStr;
    var header := OPEN_HEADER;
    if "overdue" !in pivotRanges {
      return Err(KeyError("overdue"));
    }
    var p1 := pivotRanges["overdue"];
    if "due_date" !in pivotRanges {
      return Err(KeyError("due_date"));
    }
    var p2 := pivotRanges["due_date"];
    if "count_of_content" !in pivotRanges {
      return Err(KeyError("count_of_content"));
    }
    var p3 := pivotRanges["count_of_content"];

    var p3NumRows := p3.endRow - (p3.startRow + 1) + 1;
    var rows: seq<seq<string>> := [];
    // range() of a count that is not positive is empty
    var n := if p3NumRows > 0 then p3NumRows else 0;
    for rowVal := 0 to n
      invariant rows == OpenRows(p1, p2, p3, startRow, rowVal)
    {
      rows := rows + [OpenRow(p1, p2, p3, startRow, rowVal)];
    }
    return Ok(Table(title, header, rows));
  }

  /** build_addressed_review_notes_table: one row of four cells per addressed_status row. */
  method BuildAddressedReviewNotesTable(baseDateStr: string, pivotRanges: map<string, PivotRange>, startRow: int)
    returns (r: Result<Table, TableError>)
    ensures r == AddressedNotesTable(baseDateStr, pivotRanges, startRow)
  {
    var title := ADDRESSED_TITLE_PREFIX + baseDateStr;
    var header := ADDRESSED_HEADER;
    if "addressed_status" !in pivotRanges {
      return Err(KeyError("addressed_status"));
    }
    var p4 := pivotRanges["addressed_status"];
    var p4NumRows := p4.endRow - (p4.startRow + 1) + 1;
    var rows: seq<seq<string>> := [];
    var n := if p4NumRows > 0 then p4NumRows else 0;
    for rowVal := 0 to n
      invariant rows == AddressedRows(p4, startRow, rowVal)
    {
      rows := rows + [AddressedRow(p4, startRow, rowVal)];
    }
    return Ok(Table(title, header, rows));
  }

  /** get_all_tables: both tables from the same ranges and start row, open notes first. */
  method GetAllTables(baseDateStr: string, pivotRanges: map<string, PivotRange>, startRow: int)
    returns (r: Result<map<string, Table>, TableError>)
    ensures OpenNotesTable(baseDateStr, pivotRanges, startRow).Err? ==> r == Err(OpenNotesTable(baseDateStr, pivotRanges, startRow).error)
    ensures OpenNotesTable(baseDateStr, pivotRanges, startRow).Ok? && AddressedNotesTable(baseDateStr, pivotRanges, startRow).Err? ==>
              r == Err(AddressedNotesTable(baseDateStr, pivotRanges, startRow).error)
    ensures r.Ok? <==> OpenNotesTable(baseDateStr, pivotRanges, startRow).Ok? && AddressedNotesTable(baseDateStr, pivotRanges, startRow).Ok?
    ensures r.Ok? ==> && r.value.Keys == {"open_notes", "addressed_notes"}
                      && r.value["open_notes"] == OpenNotesTable(baseDateStr, pivotRanges, startRow).value
                      && r.value["addressed_notes"] == AddressedNotesTable(baseDateStr, pivotRanges, startRow).value
  {
    var openNotesTable := BuildOpenReviewNotesTable(baseDateStr, pivotRanges, startRow);
    if openNotesTable.Err? {
      return Err(openNotesTable.error);
    }
    var addressedNotesTable := BuildAddressedReviewNotesTable(baseDateStr, pivotRanges, startRow);
    if addressedNotesTable.Err? {
      return Err(addressedNotesTable.error);
    }
    return Ok(map["open_notes" := openNotesTable.value, "addressed_notes" := addressedNotesTable.value]);
  }
}
