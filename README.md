# Review-note report core, in Dafny

This project models the computing core of the review-note report of
iris-excel-automation. The report has three stages:

- **Pivots** (`src/pivots.py`): five builders turn the review-note-aging and
  signoff-aging records into count pivots. Each builder:
  - checks that its required columns are present;
  - applies one row filter:
    - `Aged > 0`;
    - a due date 0 to 14 days after the base date;
    - `Status == "Addressed"`;
    - a signoff role other than `In-Charge` and `Senior`;
    - or no filter at all;
  - counts the value column per index key, the way
    `pivot_table(aggfunc="count")` does: rows with a missing key are
    dropped, missing values are not counted, and keys come out sorted.

  `get_all_pivot_tables` runs all five builders and collects the results
  into a dict. With `dropna=True`, `pivot_table` drops every column that
  holds no value, so a filter that lets no keyed record through gives a
  pivot with no value column at all.
- **Writer** (`src/writers.py`): `write_multi_index_pivot` writes one
  two-level pivot into a worksheet, cell by cell. It writes, in order:
  - a title row (optional);
  - a "Row Labels" header;
  - a subtotal row each time the level-0 group changes;
  - one leaf row per entry;
  - a Grand Total row.

  It returns the Grand Total row. A pivot without a value column makes
  `columns.to_list()[0]` raise IndexError. `write_pivot_tables_to_sheet`
  places four of the pivots side by side on row 1 and returns the furthest
  row written; it stops at the first pivot the writer refuses.
- **Tables** (`src/tables.py`): two summary tables whose cells are Excel
  formula text. Each row copies a pivot label and looks up that person's
  counts by `VLOOKUP`. Group rows are blanked by an `IF(OR(..="Audit",..="TA"),"",…)` guard.

The Dafny modules are:

- `Wrappers`: Option and Result.
- `Decimal`: integer to decimal text, and reading it back.
- `KeyOrder`: Python's ordering of strings and of index tuples.
- `Aggregate`: the counting pivot, as a sorted list of (key, count) entries.
- `Pivots`: `src/pivots.py`, as pure functions.
- `Writers`: `src/writers.py`.
  - The worksheet is a `Worksheet` class holding a `cells` map.
  - The writer is a method with a loop over the pivot rows.
  - That loop is proved against the `Walk` fold, which specifies it.
- `Tables`: `src/tables.py`.
  - Rows and tables are functions.
  - The two builders are loop methods proved equal to those functions.

Other details of the model:

- A missing cell (NaN/NaT) is `None`.
- Dates are day numbers; Aged is a real number of days.
- A pivot without rows has no value column, as pandas' `dropna=True`
  leaves it. A pivot with rows keeps its column even when every count is 0.
- An exception is the `Err` of a `Result`:
  - the ValueError of the column check;
  - the KeyError of a missing column or dict key;
  - the NameError of an undefined name.

## Model

| member | source | states |
|---|---|---|
| Pivots.MissingColumnsOf | src/pivots.py:14-17 | the missing list holds exactly the required names absent from the columns, in the order of the required list |
| Pivots.NoteObsCount | src/pivots.py:20-25 | the observations fed to the count of a key number the records that pass the filter, have that key and a present Content |
| Pivots.NoteObsKeys | src/pivots.py:20-25 | a key is observed iff some record that passes the filter has it |
| Pivots.NotePivotEntries | src/pivots.py:23-25 | the pivot rows are sorted, two-level, count per key the passing records with present Content, and have a row exactly for each key of a passing record |
| Pivots.BuildOverduePivot | src/pivots.py:8-25 | succeeds iff no required column is missing and Aged is a column; missing required columns raise the column error before any filtering, a missing Aged is a KeyError; otherwise the pivot is indexed by (Assigned group, Allocated To), has a row exactly for each key of a note with Aged > 0, counts those notes, and has the value column "Overdue" only when it has rows |
| Pivots.BuildDueDatePivot | src/pivots.py:50-71 | succeeds iff no required column is missing and Due Date is a column; a missing Due Date is a KeyError; otherwise it has a row exactly for each key of a note due 0 to 14 days after the base day, counts those notes, and has the value column "Due within 1-14 Days" only when it has rows |
| Pivots.BuildCountOfContentPivot | src/pivots.py:94-106 | the call fails iff a required column is missing; otherwise it counts every note by (Assigned group, Allocated To), with value column "Content" when it has rows |
| Pivots.BuildAddressedStatusPivot | src/pivots.py:135-150 | fails iff one of its four required columns (Status included) is missing; otherwise it has a row exactly for each (Created by group, Created By) of a note whose Status is "Addressed", counts those notes, and has the value column "Addressed" only when it has rows |
| Pivots.SignoffObsCount | src/pivots.py:190-195 | the observations for a one-level key count the admitted records of that Assignee with a present Workflow; a key of any other length gets none |
| Pivots.SignoffObsKeys | src/pivots.py:190-195 | a key is observed iff it is one Assignee of an admitted record |
| Pivots.BuildSignoffAgingPivot | src/pivots.py:179-195 | fails iff Assignee, Workflow or Signoff Role is missing; otherwise it is a one-level pivot with a row exactly for each Assignee of an admitted record, counting Workflow over the admitted records, with value column "Workflow" when it has rows |
| Pivots.Collect | src/pivots.py:226-255 | the dict is built iff all five builders succeed, under exactly the five names; otherwise the error is the first failing builder's, in call order |
| Pivots.GetAllPivotTables | src/pivots.py:216-255 | succeeds iff every builder succeeds and there is a base date; each name maps to its builder's pivot; without a base date (once the overdue pivot is built) it is the NameError of `df` |
| Pivots.GetAllPivotTablesWithFallback | src/pivots.py:230-238 | the corrected run: without a base date the due-date pivot is the empty pivot of the same index, which has no value column; with one it equals the run as written |
| Pivots.NoBaseDateRaisesNameError | src/pivots.py:234-238 | as written, a run without a base date always fails with the NameError, while the corrected run then succeeds exactly when the other builders do |
| Pivots.NoteRejectedIsIgnored | src/pivots.py:20 | a note the filter rejects leaves the pivot rows unchanged |
| Pivots.OverdueIgnoresNonPositiveAge | src/pivots.py:20-25 | a note with Aged missing or at most 0 leaves the overdue pivot unchanged |
| Pivots.NoteCountedIff | src/pivots.py:20-25 | appending a keyed note with present Content adds 1 to its key's count if the filter admits it and 0 otherwise |
| Pivots.OverdueCountsPositiveAge | src/pivots.py:20-25 | a keyed note with Content raises its key's overdue count by one iff its Aged is present and above 0, and leaves it unchanged otherwise |
| Pivots.DueSoonWindow | src/pivots.py:63-71 | a keyed note with Content raises its key's due-date count by one iff it is due between the base day and 14 days later, both ends included |
| Pivots.AddressedIgnoresOtherStatus | src/pivots.py:145-150 | a note whose Status is not exactly "Addressed" leaves the addressed pivot unchanged |
| Pivots.AddressedCountsExactStatus | src/pivots.py:145-150 | a keyed note with Content raises its creator's addressed count by one iff its Status is "Addressed" |
| Pivots.NoteEntriesEmpty | src/pivots.py:23-25 | a count pivot has no rows iff no record passes the filter with both index levels present |
| Pivots.FilteredPivotWithoutValueColumn | src/pivots.py:20-150 | the overdue, due-date and addressed pivots lose their value column iff their filter lets no record with both index levels through |
| Pivots.NoteCountWithinAll | src/pivots.py:20-106 | a filtered count never exceeds the unfiltered count of the same key |
| Pivots.FilteredPivotsWithinCountOfContent | src/pivots.py:20-106 | the keys of the overdue and due-date pivots are keys of the count-of-content pivot, and their counts never exceed its counts |
| Pivots.NoteObsCounted | src/pivots.py:106 | the unfiltered observations count exactly the keyed notes with present Content |
| Pivots.CountOfContentCoversEveryPair | src/pivots.py:106 | the count-of-content pivot has a row exactly for each (Assigned group, Allocated To) pair present, and its counts sum to the number of such notes with Content |
| Pivots.SignoffIgnoresInChargeAndSenior | src/pivots.py:190-192 | a record in the In-Charge or Senior role leaves the signoff pivot unchanged |
| Pivots.SignoffCountsOtherRoles | src/pivots.py:190-195 | a record in any other role (a missing role included) with an Assignee and a Workflow adds one to its Assignee's count |
| Aggregate.Bump | src/pivots.py:23 | adding inc at key k keeps the entries sorted, adds k to the key set, raises only k's count by inc, and raises the total by inc |
| Aggregate.Tally | src/pivots.py:23 | the count pivot of a list of observations is sorted, has exactly the observed keys, counts each key's counted observations, and totals all counted observations |
| Aggregate.LookupAt | src/pivots.py:23 | in sorted entries, looking up an entry's key finds that entry's count |
| Aggregate.KeySetMembers | src/pivots.py:23 | a key is in the key set iff some entry has it |
| Aggregate.ObsKeysMembers | src/pivots.py:23 | a key is observed iff some observation has it |
| Aggregate.OccurrencesSnoc | src/pivots.py:23 | appending an observation raises the occurrences of its own key by one if it is counted, and of no other key |
| KeyOrder.StrLessIrreflexive | src/pivots.py:23 | no string sorts before itself |
| KeyOrder.StrLessTransitive | src/pivots.py:23 | string order is transitive |
| KeyOrder.StrLessTotal | src/pivots.py:23 | two different strings are ordered one way or the other |
| KeyOrder.KeyLessIrreflexive | src/pivots.py:23 | no index tuple sorts before itself |
| KeyOrder.KeyLessTransitive | src/pivots.py:23 | tuple order is transitive |
| KeyOrder.KeyLessTotal | src/pivots.py:23 | two different tuples are ordered one way or the other |
| KeyOrder.KeyLessFirstLevel | src/writers.py:73-80 | in sorted order a tuple's first level never sorts after a later tuple's first level, so each group's rows are contiguous |
| Decimal.NatRoundTrip | src/tables.py:56 | the decimal text of a natural is all digits and reads back as that natural |
| Decimal.IntRoundTrip | src/tables.py:56 | the text of any integer, negative ones included, parses back to that integer |
| Decimal.IntToStringInjective | src/tables.py:56 | two integers with the same text are equal |
| Decimal.ReadIntOf | src/tables.py:63 | the text of an integer followed by a non-digit reads back as the integer and that rest |
| Writers.Worksheet.constructor | src/writers.py:26 | a new worksheet has no cells |
| Writers.Worksheet.SetCell | src/writers.py:56 | writing a cell changes that one cell and no other |
| Writers.GroupTotals | src/writers.py:70 | every level-0 group of the pivot has a total, and it is the sum of all of that group's rows wherever they are |
| Writers.WriteMultiIndexPivot | src/writers.py:26-134 | fails iff the index is not two-level (ValueError) or the pivot has no value column (IndexError), in that order, and then writes nothing; otherwise the sheet gains exactly the pivot's cells (title, header, walked rows, Grand Total) and the Grand Total row is returned |
| Writers.WriteHeader | src/writers.py:46-61 | with a title, the title and a blank go on the start row and the header two rows lower; without one the header is on the start row; the sheet gains exactly those cells |
| Writers.WriteRows | src/writers.py:66-107 | the loop leaves the row counter, the grand total and the sheet exactly as the Walk fold over all entries says |
| Writers.StepCases | src/writers.py:80-107 | a row of a new group advances two rows and adds the group's total to the grand total; a row of the current group advances one row and adds nothing |
| Writers.WalkCounters | src/writers.py:66-107 | after n rows the row counter is the first row plus n plus the number of group starts, the current group is the last row's, and the grand total is the sum of the subtotals shown |
| Writers.WalkFootprint | src/writers.py:80-107 | the rows walked write only columns col and col+1, in rows from the first row up to the row counter, each such row filled in both columns |
| Writers.WalkLeaf | src/writers.py:99-107 | every pivot entry's person and count appear on its own leaf row, in iteration order |
| Writers.GrandTotalIsTotal | src/writers.py:71-115 | when each group's rows are contiguous, the grand total equals the sum of all leaf values |
| Writers.SortedIsContiguous | src/writers.py:73 | a sorted pivot has each group's rows contiguous |
| Writers.GroupsSeenMembers | src/writers.py:80 | the groups seen among the first n rows are exactly those rows' level-0 values |
| Writers.OneSubtotalPerGroup | src/writers.py:80-96 | with contiguous groups, exactly one subtotal row is written per distinct group |
| Writers.PivotCellWithin | src/writers.py:47-118 | every cell the pivot writes is in column col or col+1, between the start row and the returned row |
| Writers.PivotRowFilled | src/writers.py:56-118 | every row from the header to the Grand Total has both columns written |
| Writers.PivotHeader | src/writers.py:40-61 | the header row holds "Row Labels" and the name of the pivot's first column |
| Writers.PivotTitle | src/writers.py:46-53 | with a title, the title is at the start row and the row below is left blank |
| Writers.PivotLeaf | src/writers.py:99-107 | entry i's person and count are on its leaf row, strictly between the header and the Grand Total |
| Writers.PivotSubtotal | src/writers.py:80-96 | the row above a group's first leaf holds the group name and the group's full total |
| Writers.PivotGrandLabel | src/writers.py:110 | the returned row is labelled "Grand Total" |
| Writers.PivotTotals | src/writers.py:66-134 | the returned row is header + 1 + number of groups + number of entries, and its value is the total of the pivot |
| Writers.FirstMissing | src/writers.py:142-145 | none is missing iff all four names are in the dict; otherwise the first missing name in lookup order |
| Writers.WrittenPrefix | src/writers.py:149-203 | the pivots before the prefix length are ones the writer accepts (two-level, with a value column), and the one at it is not |
| Writers.PlacementSpansDisjoint | src/writers.py:149-196 | the four two-column spans (columns 1, 4, 8 and 11) do not overlap |
| Writers.SheetKeepsEachPivot | src/writers.py:149-203 | every cell of each placed pivot is on the sheet with that pivot's value; no later pivot overwrites it |
| Writers.LaterPivotMissesCell | src/writers.py:149-196 | a cell of one placed pivot is never written by a pivot placed further right |
| Writers.LastPivotCell | src/writers.py:149-203 | every cell of the pivot placed last is on the sheet with that pivot's value |
| Writers.LaterPivotKeepsCell | src/writers.py:149-203 | placing the next pivot keeps every cell of an earlier pivot as it was |
| Writers.FinalRowIsLargest | src/writers.py:147-205 | the returned row is at least every pivot's Grand Total row and equal to one of them |
| Writers.WritePlacement | src/writers.py:149-159 | one block: the pivot is written at row 1 of its column with its title, or refused and nothing is written |
| Writers.WritePivotTablesToSheet | src/writers.py:137-205 | a missing name raises its KeyError before anything is written; otherwise the four pivots are written in order, and the result is the largest Grand Total row; the first pivot the writer refuses stops the writing after the ones before it, with that pivot's ValueError or IndexError |
| Writers.NoOverdueNoteStopsSheet | src/writers.py:36-159 | when no note with both index levels has Aged > 0, all four names are present, the writer writes no pivot, and it stops at the first with the IndexError |
| Writers.BuiltPivotsArePlaced | src/writers.py:142-145 | the dict the builders return holds all four names the writer looks up |
| Writers.FirstPivotRefusedStopsSheet | src/writers.py:36-159 | a two-level overdue pivot without a value column stops the writer at the first placement with the IndexError |
| Tables.OpenRows | src/tables.py:45-97 | the open rows are n rows, row i being the row built for row_val i |
| Tables.AddressedRows | src/tables.py:142-171 | the addressed rows are n rows, row i being the row built for row_val i |
| Tables.OpenNotesTable | src/tables.py:6-101 | a missing overdue, due_date or count_of_content range raises that KeyError, in that order; otherwise the title embeds the base date, the header is the seven names, there are count_of_content end_row - start_row rows, and each has seven cells |
| Tables.AddressedNotesTable | src/tables.py:111-175 | fails iff addressed_status is missing; otherwise the title embeds the base date, the header is the four names, there are end_row - start_row rows, and each has four cells |
| Tables.LooksUpReads | src/tables.py:63 | a looked-up cell is guarded on its own row and contains the lookup table |
| Tables.ComputesReads | src/tables.py:73 | a computed cell is guarded on its own row and contains the difference it computes |
| Tables.HardCodedColumns | src/tables.py:56-94 | the writer's placement columns are lettered A/B, D/E, H/I and K/L and hold overdue, due_date, count_of_content and addressed_status; the tables start in columns A and I; the header names Overdue, Due Soon, Grand Total, As of [PREV DATE] and Addressed head columns B, C, E, F and J |
| Tables.OpenRowColumnsAgree | src/tables.py:49-94 | every formula of an open row refers to the writer's columns: the label copies the count_of_content pivot's first column; Overdue, Due Soon and Grand Total look up over the two columns the writer gave the overdue, due_date and count_of_content pivots; Pending and Difference subtract the columns headed Grand Total, Due Soon, Overdue and As of [PREV DATE]; all show "" when the table's first column names an Audit or TA group |
| Tables.AddressedRowColumnsAgree | src/tables.py:146-168 | the label and lookup of an addressed row use the two columns the writer gave the addressed_status pivot; Difference subtracts the column headed As of [PREV DATE] from the one headed Addressed; all show "" when the table's first column names an Audit or TA group |
| Tables.OpenRowLabel | src/tables.py:49-57 | row i has seven cells and its label is `=H{p3.start_row + 1 + i}` |
| Tables.OpenRowOverdue | src/tables.py:35-64 | the Overdue cell, shows "" when its own row (start_row + 2 + i) is an Audit or TA group row and otherwise looks up `$A$s:$B$e` of the overdue range |
| Tables.OpenRowDueSoon | src/tables.py:38-69 | the Due Soon cell shows "" on an Audit or TA group row and otherwise looks up `$D$s:$E$e` of the due_date range |
| Tables.OpenRowPending | src/tables.py:73 | the Pending cell shows "" on an Audit or TA group row and otherwise is `E{r}-C{r}-B{r}` |
| Tables.OpenRowGrandTotal | src/tables.py:41-79 | the Grand Total cell shows "" on an Audit or TA group row and otherwise looks up `$H$s:$I$e` of the count_of_content range |
| Tables.OpenRowPrevDate | src/tables.py:89 | the previous-date cell shows "" on an Audit or TA group row and otherwise looks up `PrevDate!$A$2:$B$36` |
| Tables.OpenRowDifference | src/tables.py:94 | the Difference cell shows "" on an Audit or TA group row and otherwise is `E{r}-F{r}` |
| Tables.AddressedRowLabel | src/tables.py:146-164 | row i has four cells, its label is `=K{p4.start_row + 1 + i}` and its third cell is empty |
| Tables.AddressedRowAddressed | src/tables.py:138-160 | the Addressed cell, shows "" when column I of its own row is an Audit or TA group row and otherwise looks up `$K$s:$L$e` of the addressed_status range |
| Tables.AddressedRowDifference | src/tables.py:168 | the Difference cell shows "" on an Audit or TA group row and otherwise is `J{r}-K{r}` |
| Tables.OpenTableRowLabel | src/tables.py:41-56 | row i of the open table copies pivot row start_row + 1 + i; the rows walk from the row below the header down to the Grand Total row, the last row being the Grand Total |
| Tables.AddressedTableRowLabel | src/tables.py:138-152 | the same for the addressed table and the addressed_status range |
| Tables.WrittenRange | src/writers.py:53-134 | the range of a written pivot (header row, Grand Total row) has its header above its Grand Total |
| Tables.OpenLabelsInWrittenPivot | src/tables.py:41-56 | over the range the writer produces for count_of_content, every label of the open table points at a written cell in the pivot's first column, and the last at its "Grand Total" |
| Tables.BuildOpenReviewNotesTable | src/tables.py:6-101 | the loop builds exactly the open-notes table, or raises its KeyError |
| Tables.BuildAddressedReviewNotesTable | src/tables.py:111-175 | the loop builds exactly the addressed-notes table, or raises its KeyError |
| Tables.GetAllTables | src/tables.py:185-204 | fails with the first builder's KeyError; otherwise the dict has exactly open_notes and addressed_notes, both built from the same start_row |

## Left out

- `src/formatting.py`, `src/excel_io.py` and `main.py` are not part of this model: styling, file copying, recalculation, reading the workbook and orchestration.
- Fonts, fills, borders, indentation and column widths (`autofit_colums`) are not modelled. Only cell values are.
- The debug blocks are not modelled: CSV, pickle and JSON dumps, and prints.
- The generated formulas are never evaluated (VLOOKUP, IFERROR). The model only states their text.
- Dates are day numbers, so `(Due Date - base_date).dt.days` is a subtraction.
- Base-date parsing is not modelled (`extract_base_date` in `src/excel_io.py`).
- The pivot constants of `src/constants.py` appear as literals (columns 1, 4, 8, 11 and 1, 9), as the source itself does.
- The `dfs` dict is a `Sources` record. Its two keys are always present, so the KeyError of a missing source frame is not modelled.
- Each `pivot_ranges` entry is a `PivotRange` record. A missing `start_row` or `end_row` inner key cannot occur.
- Integers are unbounded. Excel's row limit and Python's arbitrary-size ints make widths irrelevant here.
- Tables.OpenNotesTable: the row is built as one seven-cell value rather than seven `append` calls. The observable result is the same list.
- Tables.OpenRowOverdue: the row lemmas state each cell's structure (guard, then lookup or difference). The cells are read back only through Tables.LooksUpReads and Tables.ComputesReads, not for every row of a table at once.
- Tables.OpenTableRowLabel: the table lemmas speak of one row at a time. The row count is in the contract of Tables.OpenNotesTable.
- Writers.WritePivotTablesToSheet: the four identical blocks share Writers.WritePlacement. The pivot lookups and titles are as in the source.
- Writers.WritePivotTablesToSheet: the progress prints are not modelled.
- Writers.WriteMultiIndexPivot: the ValueError of a non-MultiIndex pivot is `NotMultiIndex`, and the IndexError of a pivot without a value column is `NoValueColumn`.
- Writers.WriteMultiIndexPivot: pandas' `groupby(level=0).sum()` is `GroupTotal`, the sum over all rows of the group.
- Pivots.BuildOverduePivot: Aged is a real number of days, or missing. A non-numeric Aged cell, which makes `df["Aged"] > 0` raise TypeError, is not modelled.
- Pivots.BuildSignoffAgingPivot: `NaN != "In-Charge"` is true in pandas, so a record without a role passes the filter. The model keeps that.

## Findings

| source | as written | input that shows it | evidently intended | confidence | as-written member | corrected member |
|---|---|---|---|---|---|---|
| src/pivots.py:234-238 | without a base date, the fallback builds the due-date pivot from `df`, a name not defined in `get_all_pivot_tables`, so the call raises NameError | any run with `base_date` falsy (None) whose overdue pivot builds | an empty due-date pivot with the same two-level index, so the pivots can still be built (having no rows it has no value column, so the sheet writer would still refuse it with IndexError) | not executed | Pivots.GetAllPivotTables (shown by Pivots.NoBaseDateRaisesNameError) | Pivots.GetAllPivotTablesWithFallback |
