/**
 * The five pivot builders of the report and the function that runs them
 * all. Each builder checks that its required columns exist, filters the
 * records, and counts the value column per index key (see module Aggregate).
 * Dates are day numbers; a missing cell (NaN/NaT) is None.
 */
module Pivots {
  import opened Wrappers
  import opened Aggregate

  /** One record of the review-note-aging sheet. */
  datatype ReviewNote = ReviewNote(
    assignedGroup: Option<string>,
    allocatedTo: Option<string>,
    content: Option<string>,
    aged: Option<real>,
    dueDate: Option<int>,
    createdByGroup: Option<string>,
    createdBy: Option<string>,
    status: Option<string>)

  /** One record of the signoff-aging sheet. */
  datatype SignoffRecord = SignoffRecord(
    assignee: Option<string>,
    workflow: Option<string>,
    signoffRole: Option<string>)

  /** A DataFrame: its column labels and its records. */
  datatype Frame<R> = Frame(columns: seq<string>, rows: seq<R>)

  /** A pivot table: index level names, its value columns, its rows in index order. */
  datatype Pivot = Pivot(indexNames: seq<string>, columns: seq<string>, entries: seq<Entry>)

  /**
   * The columns of a count pivot with value column name: pandas'
   * `pivot_table` drops every column holding no non-null value
   * (`dropna=True`), so a pivot without rows has no value column at all.
   */
  function CountColumns(name: string, es: seq<Entry>): seq<string> {
    if es == [] then [] else [name]
  }

  /** What pandas guarantees of every pivot it returns. */
  predicate WellFormed(p: Pivot) {
    && Sorted(p.entries)
    && forall i :: 0 <= i < |p.entries| ==> |p.entries[i].key| == |p.indexNames|
  }

  datatype PivotError =
    | MissingColumns(pivot: string, missing: seq<string>)  // the ValueError of the column check
    | KeyError(column: string)                           // a filter column that is not there
    | NameError(name: string)                            // an undefined variable

  const ASSIGNMENT_INDEX: seq<string> := ["Assigned group", "Allocated To"]
  const CREATOR_INDEX: seq<string> := ["Created by group", "Created By"]
  const NOTE_REQUIRED: seq<string> := ["Assigned group", "Allocated To", "Content"]
  const ADDRESSED_REQUIRED: seq<string> := ["Created by group", "Created By", "Content", "Status"]
  const SIGNOFF_REQUIRED: seq<string> := ["Assignee", "Workflow", "Signoff Role"]

  /** a is b with some elements left out, the rest in the same order. */
  predicate IsSubsequence(a: seq<string>, b: seq<string>)
    decreases |b|
  {
    if a == [] then true
    else if b == [] then false
    else if a[0] == b[0] then IsSubsequence(a[1..], b[1..])
    else IsSubsequence(a, b[1..])
  }

  /** `[col for col in required if col not in df.columns]` */
  function MissingColumnsOf(required: seq<string>, columns: seq<string>): (m: seq<string>)
    ensures forall c :: c in m <==> c in required && c !in columns
    ensures IsSubsequence(m, required)
  {
    if required == [] then []
    else if required[0] !in columns then [required[0]] + MissingColumnsOf(required[1..], columns)
    else MissingColumnsOf(required[1..], columns)
  }

  // ---------------------------------------------------------------------
  // Review notes: filters, index keys and the reference count
  // ---------------------------------------------------------------------

  /** The row filters of the four review-note pivots. */
  datatype NoteFilter = AllNotes | AgedAboveZero | DueWithin14Days(baseDay: int) | StatusIs(status: string)

  predicate Admits(f: NoteFilter, n: ReviewNote) {
    match f
    case AllNotes => true
    case AgedAboveZero => n.aged.Some? && n.aged.value > 0.0
    case DueWithin14Days(base) => n.dueDate.Some? && 0 <= n.dueDate.value - base <= 14
    case StatusIs(s) => n.status == Some(s)
  }

  /** The two index pairs a review-note pivot can use. */
  datatype NoteIndex = ByAssignment | ByCreator

  /** The index key of a note; None when a level is missing (pandas drops such rows). */
  function NoteKey(ix: NoteIndex, n: ReviewNote): (k: Option<Key>)
    ensures k.Some? ==> |k.value| == 2
  {
    match ix
    case ByAssignment =>
      if n.assignedGroup.Some? && n.allocatedTo.Some? then Some([n.assignedGroup.value, n.allocatedTo.value]) else None
    case ByCreator =>
      if n.createdByGroup.Some? && n.createdBy.Some? then Some([n.createdByGroup.value, n.createdBy.value]) else None
  }

  /** The records the pivot groups, in frame order. */
  function NoteObs(rows: seq<ReviewNote>, f: NoteFilter, ix: NoteIndex): (obs: seq<Obs>)
    ensures forall i :: 0 <= i < |obs| ==> |obs[i].key| == 2
  {
    if rows == [] then []
    else
      var n := rows[|rows| - 1];
      var init := NoteObs(rows[..|rows| - 1], f, ix);
      if Admits(f, n) && NoteKey(ix, n).Some? then init + [Obs(NoteKey(ix, n).value, n.content.Some?)] else init
  }

  /** Number of records that pass f, have key k and a non-null Content. */
  function NoteCount(rows: seq<ReviewNote>, f: NoteFilter, ix: NoteIndex, k: Key): nat {
    if rows == [] then 0
    else
      var n := rows[|rows| - 1];
      NoteCount(rows[..|rows| - 1], f, ix, k) + (if Admits(f, n) && NoteKey(ix, n) == Some(k) && n.content.Some? then 1 else 0)
  }

  /** One more record adds one occurrence of k exactly when it is admitted, has key k and a Content. */
  lemma NoteObsStep(before: seq<Obs>, f: NoteFilter, ix: NoteIndex, n: ReviewNote, k: Key)
    ensures var after := if Admits(f, n) && NoteKey(ix, n).Some? then before + [Obs(NoteKey(ix, n).value, n.content.Some?)] else before;
            Occurrences(after, k) == Occurrences(before, k) + (if Admits(f, n) && NoteKey(ix, n) == Some(k) && n.content.Some? then 1 else 0)
  {
    if Admits(f, n) && NoteKey(ix, n).Some? {
      OccurrencesSnoc(before, Obs(NoteKey(ix, n).value, n.content.Some?), k);
    }
  }

  lemma {:induction false} NoteObsCount(rows: seq<ReviewNote>, f: NoteFilter, ix: NoteIndex, k: Key)
    ensures Occurrences(NoteObs(rows, f, ix), k) == NoteCount(rows, f, ix, k)
  {
    if rows != [] {
      var init := rows[..|rows| - 1];
      NoteObsCount(init, f, ix, k);
      NoteObsStep(NoteObs(init, f, ix), f, ix, rows[|rows| - 1], k);
    }
  }

  lemma {:induction false} NoteObsKeys(rows: seq<ReviewNote>, f: NoteFilter, ix: NoteIndex, k: Key)
    ensures k in ObsKeys(NoteObs(rows, f, ix)) <==>
            exists i :: 0 <= i < |rows| && Admits(f, rows[i]) && NoteKey(ix, rows[i]) == Some(k)
  {
    if rows != [] {
      var init := rows[..|rows| - 1];
      var n := rows[|rows| - 1];
      NoteObsKeys(init, f, ix, k);
      if Admits(f, n) && NoteKey(ix, n).Some? {
        var o := NoteObs(init, f, ix) + [Obs(NoteKey(ix, n).value, n.content.Some?)];
        assert o[..|o| - 1] == NoteObs(init, f, ix);
      }
      if exists i :: 0 <= i < |init| && Admits(f, init[i]) && NoteKey(ix, init[i]) == Some(k) {
        var i :| 0 <= i < |init| && Admits(f, init[i]) && NoteKey(ix, init[i]) == Some(k);
        assert rows[i] == init[i];
      }
      if exists i :: 0 <= i < |rows| && Admits(f, rows[i]) && NoteKey(ix, rows[i]) == Some(k) {
        var i :| 0 <= i < |rows| && Admits(f, rows[i]) && NoteKey(ix, rows[i]) == Some(k);
        if i < |init| {
          assert init[i] == rows[i];
        }
      }
    }
  }

  /**
   * The pivot rows of the notes that pass f, indexed by ix: sorted, one row
   * per key some passing note has, and the count of each row is NoteCount.
   */
  function NotePivotEntries(rows: seq<ReviewNote>, f: NoteFilter, ix: NoteIndex): (es: seq<Entry>)
    ensures Sorted(es)
    ensures forall i :: 0 <= i < |es| ==> |es[i].key| == 2
    ensures forall k :: Lookup(es, k) == NoteCount(rows, f, ix, k)
    ensures forall k :: k in KeySet(es) <==>
              exists i :: 0 <= i < |rows| && Admits(f, rows[i]) && NoteKey(ix, rows[i]) == Some(k)
  {
    var obs := NoteObs(rows, f, ix);
    var es := Tally(obs);
    forall k ensures Lookup(es, k) == NoteCount(rows, f, ix, k) {
      NoteObsCount(rows, f, ix, k);
    }
    forall k ensures k in KeySet(es) <==>
      exists i :: 0 <= i < |rows| && Admits(f, rows[i]) && NoteKey(ix, rows[i]) == Some(k)
    {
      NoteObsKeys(rows, f, ix, k);
    }
    forall i | 0 <= i < |es| ensures |es[i].key| == 2 {
      KeySetMembers(es, es[i].key);
      ObsKeysMembers(obs, es[i].key);
    }
    es
  }

  /** The pivot rows are empty exactly when no note passes the filter with both index levels. */
  lemma NoteEntriesEmpty(rows: seq<ReviewNote>, f: NoteFilter, ix: NoteIndex)
    ensures NotePivotEntries(rows, f, ix) == [] <==>
              forall i :: 0 <= i < |rows| ==> !(Admits(f, rows[i]) && NoteKey(ix, rows[i]).Some?)
  {
    var es := NotePivotEntries(rows, f, ix);
    if es != [] {
      KeySetMembers(es, es[0].key);
    }
    if exists i :: 0 <= i < |rows| && Admits(f, rows[i]) && NoteKey(ix, rows[i]).Some? {
      var i :| 0 <= i < |rows| && Admits(f, rows[i]) && NoteKey(ix, rows[i]).Some?;
      var k := NoteKey(ix, rows[i]).value;
      assert k in KeySet(es);
      KeySetMembers(es, k);
    }
  }

  // ---------------------------------------------------------------------
  // The four review-note builders
  // ---------------------------------------------------------------------

  /** build_overdue_pivot: notes with Aged > 0, by (Assigned group, Allocated To). */
  function BuildOverduePivot(df: Frame<ReviewNote>): (r: Result<Pivot, PivotError>)
    ensures MissingColumnsOf(NOTE_REQUIRED, df.columns) != [] ==>
              r == Err(MissingColumns("overdue_pivot", MissingColumnsOf(NOTE_REQUIRED, df.columns)))
    ensures MissingColumnsOf(NOTE_REQUIRED, df.columns) == [] && "Aged" !in df.columns ==> r == Err(KeyError("Aged"))
    ensures r.Ok? <==> MissingColumnsOf(NOTE_REQUIRED, df.columns) == [] && "Aged" in df.columns
    ensures r.Ok? ==> && r.value.indexNames == ASSIGNMENT_INDEX && r.value.columns == CountColumns("Overdue", r.value.entries)
                      && WellFormed(r.value)
                      && (forall k :: Lookup(r.value.entries, k) == NoteCount(df.rows, AgedAboveZero, ByAssignment, k))
                      && forall k :: k in KeySet(r.value.entries) <==>
                           exists i :: 0 <= i < |df.rows| && Admits(AgedAboveZero, df.rows[i]) && NoteKey(ByAssignment, df.rows[i]) == Some(k)
  {
    var missing := MissingColumnsOf(NOTE_REQUIRED, df.columns);
    if missing != [] then Err(MissingColumns("overdue_pivot", missing))
    else if "Aged" !in df.columns then Err(KeyError("Aged"))
    else
      var es := NotePivotEntries(df.rows, AgedAboveZero, ByAssignment);
      Ok(Pivot(ASSIGNMENT_INDEX, CountColumns("Overdue", es), es))
  }

  /** build_due_date_pivot: notes due 0 to 14 days after the base day, both ends included. */
  function BuildDueDatePivot(df: Frame<ReviewNote>, baseDay: int): (r: Result<Pivot, PivotError>)
    ensures MissingColumnsOf(NOTE_REQUIRED, df.columns) != [] ==>
              r == Err(MissingColumns("due_date_pivot", MissingColumnsOf(NOTE_REQUIRED, df.columns)))
    ensures MissingColumnsOf(NOTE_REQUIRED, df.columns) == [] && "Due Date" !in df.columns ==> r == Err(KeyError("Due Date"))
    ensures r.Ok? <==> MissingColumnsOf(NOTE_REQUIRED, df.columns) == [] && "Due Date" in df.columns
    ensures r.Ok? ==> && r.value.indexNames == ASSIGNMENT_INDEX
                      && r.value.columns == CountColumns("Due within 1-14 Days", r.value.entries)
                      && WellFormed(r.value)
                      && (forall k :: Lookup(r.value.entries, k) == NoteCount(df.rows, DueWithin14Days(baseDay), ByAssignment, k))
                      && forall k :: k in KeySet(r.value.entries) <==>
                           exists i :: 0 <= i < |df.rows| && Admits(DueWithin14Days(baseDay), df.rows[i])
                                       && NoteKey(ByAssignment, df.rows[i]) == Some(k)
  {
    var missing := MissingColumnsOf(NOTE_REQUIRED, df.columns);
    if missing != [] then Err(MissingColumns("due_date_pivot", missing))
    else if "Due Date" !in df.columns then Err(KeyError("Due Date"))
    else
      var es := NotePivotEntries(df.rows, DueWithin14Days(baseDay), ByAssignment);
      Ok(Pivot(ASSIGNMENT_INDEX, CountColumns("Due within 1-14 Days", es), es))
  }

  /** build_count_of_content_pivot: every note, value column keeps its name "Content". */
  function BuildCountOfContentPivot(df: Frame<ReviewNote>): (r: Result<Pivot, PivotError>)
    ensures r.Err? <==> MissingColumnsOf(NOTE_REQUIRED, df.columns) != []
    ensures r.Err? ==> r.error == MissingColumns("count_of_content_pivot", MissingColumnsOf(NOTE_REQUIRED, df.columns))
    ensures r.Ok? ==> && r.value.indexNames == ASSIGNMENT_INDEX && r.value.columns == CountColumns("Content", r.value.entries)
                      && WellFormed(r.value)
                      && forall k :: Lookup(r.value.entries, k) == NoteCount(df.rows, AllNotes, ByAssignment, k)
  {
    var missing := MissingColumnsOf(NOTE_REQUIRED, df.columns);
    if missing != [] then Err(MissingColumns("count_of_content_pivot", missing))
    else
      var es := NotePivotEntries(df.rows, AllNotes, ByAssignment);
      Ok(Pivot(ASSIGNMENT_INDEX, CountColumns("Content", es), es))
  }

  /** build_addressed_status_pivot: notes whose Status is exactly "Addressed", by creator. */
  function BuildAddressedStatusPivot(df: Frame<ReviewNote>): (r: Result<Pivot, PivotError>)
    ensures r.Err? <==> MissingColumnsOf(ADDRESSED_REQUIRED, df.columns) != []
    ensures r.Err? ==> r.error == MissingColumns("addressed_status_pivot", MissingColumnsOf(ADDRESSED_REQUIRED, df.columns))
    ensures r.Ok? ==> && r.value.indexNames == CREATOR_INDEX && r.value.columns == CountColumns("Addressed", r.value.entries)
                      && WellFormed(r.value)
                      && (forall k :: Lookup(r.value.entries, k) == NoteCount(df.rows, StatusIs("Addressed"), ByCreator, k))
                      && forall k :: k in KeySet(r.value.entries) <==>
                           exists i :: 0 <= i < |df.rows| && Admits(StatusIs("Addressed"), df.rows[i])
                                       && NoteKey(ByCreator, df.rows[i]) == Some(k)
  {
    var missing := MissingColumnsOf(ADDRESSED_REQUIRED, df.columns);
    if missing != [] then Err(MissingColumns("addressed_status_pivot", missing))
    else
      var es := NotePivotEntries(df.rows, StatusIs("Addressed"), ByCreator);
      Ok(Pivot(CREATOR_INDEX, CountColumns("Addressed", es), es))
  }

  // ---------------------------------------------------------------------
  // Signoff aging: one index level
  // ---------------------------------------------------------------------

  /** `(role != "In-Charge") & (role != "Senior")`; a missing role compares unequal to both. */
  predicate SignoffAdmits(s: SignoffRecord) {
    s.signoffRole != Some("In-Charge") && s.signoffRole != Some("Senior")
  }

  function SignoffObs(rows: seq<SignoffRecord>): (obs: seq<Obs>)
    ensures forall i :: 0 <= i < |obs| ==> |obs[i].key| == 1
  {
    if rows == [] then []
    else
      var s := rows[|rows| - 1];
      var init := SignoffObs(rows[..|rows| - 1]);
      if SignoffAdmits(s) && s.assignee.Some? then init + [Obs([s.assignee.value], s.workflow.Some?)] else init
  }

  /** Number of admitted records with Assignee a and a non-null Workflow. */
  function SignoffCount(rows: seq<SignoffRecord>, a: string): nat {
    if rows == [] then 0
    else
      var s := rows[|rows| - 1];
      SignoffCount(rows[..|rows| - 1], a) + (if SignoffAdmits(s) && s.assignee == Some(a) && s.workflow.Some? then 1 else 0)
  }

  lemma {:induction false} SignoffObsCount(rows: seq<SignoffRecord>, k: Key)
    ensures Occurrences(SignoffObs(rows), k) == if |k| == 1 then SignoffCount(rows, k[0]) else 0
  {
    if rows != [] {
      var init := rows[..|rows| - 1];
      SignoffObsCount(init, k);
      var s := rows[|rows| - 1];
      if SignoffAdmits(s) && s.assignee.Some? {
        var o := SignoffObs(init) + [Obs([s.assignee.value], s.workflow.Some?)];
        assert o[..|o| - 1] == SignoffObs(init);
        assert |k| == 1 ==> (k == [s.assignee.value] <==> s.assignee == Some(k[0]));
      }
    }
  }

  /** An Assignee is observed iff an admitted record has it; every key observed has one level. */
  lemma {:induction false} SignoffObsKeys(rows: seq<SignoffRecord>, k: Key)
    ensures k in ObsKeys(SignoffObs(rows)) <==>
            |k| == 1 && exists i :: 0 <= i < |rows| && SignoffAdmits(rows[i]) && rows[i].assignee == Some(k[0])
  {
    if rows != [] {
      var init := rows[..|rows| - 1];
      var s := rows[|rows| - 1];
      SignoffObsKeys(init, k);
      if SignoffAdmits(s) && s.assignee.Some? {
        var o := SignoffObs(init) + [Obs([s.assignee.value], s.workflow.Some?)];
        assert o[..|o| - 1] == SignoffObs(init);
        if k == [s.assignee.value] {
          assert SignoffAdmits(rows[|init|]) && rows[|init|].assignee == Some(k[0]);
        }
      }
      if |k| == 1 && exists i :: 0 <= i < |init| && SignoffAdmits(init[i]) && init[i].assignee == Some(k[0]) {
        var i :| 0 <= i < |init| && SignoffAdmits(init[i]) && init[i].assignee == Some(k[0]);
        assert rows[i] == init[i];
      }
      if |k| == 1 && exists i :: 0 <= i < |rows| && SignoffAdmits(rows[i]) && rows[i].assignee == Some(k[0]) {
        var i :| 0 <= i < |rows| && SignoffAdmits(rows[i]) && rows[i].assignee == Some(k[0]);
        if i < |init| {
          assert init[i] == rows[i];
        } else {
          assert k == [s.assignee.value];
        }
      }
    }
  }

  /** build_signoff_aging_pivot: Workflow counted per Assignee, In-Charge and Senior roles left out. */
  function BuildSignoffAgingPivot(df: Frame<SignoffRecord>): (r: Result<Pivot, PivotError>)
    ensures r.Err? <==> MissingColumnsOf(SIGNOFF_REQUIRED, df.columns) != []
    ensures r.Err? ==> r.error == MissingColumns("signoff_aging pivot", MissingColumnsOf(SIGNOFF_REQUIRED, df.columns))
    ensures r.Ok? ==> && r.value.indexNames == ["Assignee"] && r.value.columns == CountColumns("Workflow", r.value.entries)
                      && WellFormed(r.value)
                      && (forall a :: Lookup(r.value.entries, [a]) == SignoffCount(df.rows, a))
                      && forall k :: k in KeySet(r.value.entries) <==>
                           |k| == 1 && exists i :: 0 <= i < |df.rows| && SignoffAdmits(df.rows[i]) && df.rows[i].assignee == Some(k[0])
  {
    var missing := MissingColumnsOf(SIGNOFF_REQUIRED, df.columns);
    if missing != [] then Err(MissingColumns("signoff_aging pivot", missing))
    else
      var obs := SignoffObs(df.rows);
      var es := Tally(obs);
      forall a ensures Lookup(es, [a]) == SignoffCount(df.rows, a) {
        SignoffObsCount(df.rows, [a]);
      }
      forall k ensures k in KeySet(es) <==>
          |k| == 1 && exists i :: 0 <= i < |df.rows| && SignoffAdmits(df.rows[i]) && df.rows[i].assignee == Some(k[0]) {
        SignoffObsKeys(df.rows, k);
      }
      forall i | 0 <= i < |es| ensures |es[i].key| == 1 {
        KeySetMembers(es, es[i].key);
      }
      Ok(Pivot(["Assignee"], CountColumns("Workflow", es), es))
  }

  // ---------------------------------------------------------------------
  // get_all_pivot_tables
  // ---------------------------------------------------------------------

  /** The two DataFrames the report reads. */
  datatype Sources = Sources(reviewNoteAging: Frame<ReviewNote>, signoffAging: Frame<SignoffRecord>)

  const PIVOT_NAMES: set<string> := {"overdue", "due_date", "count_of_content", "addressed_status", "signoff_aging"}

  /**
   * The dict of the five pivots, built after the five builder calls: the
   * first builder that raises (in call order) is the call's error.
   */
  function Collect(overdue: Result<Pivot, PivotError>, dueDate: Result<Pivot, PivotError>,
                   countOfContent: Result<Pivot, PivotError>, addressed: Result<Pivot, PivotError>,
                   signoff: Result<Pivot, PivotError>): (r: Result<map<string, Pivot>, PivotError>)
    ensures r.Ok? <==> overdue.Ok? && dueDate.Ok? && countOfContent.Ok? && addressed.Ok? && signoff.Ok?
    ensures r.Ok? ==> && r.value.Keys == PIVOT_NAMES
                      && r.value["overdue"] == overdue.value && r.value["due_date"] == dueDate.value
                      && r.value["count_of_content"] == countOfContent.value
                      && r.value["addressed_status"] == addressed.value && r.value["signoff_aging"] == signoff.value
    ensures overdue.Err? ==> r == Err(overdue.error)
    ensures overdue.Ok? && dueDate.Err? ==> r == Err(dueDate.error)
    ensures overdue.Ok? && dueDate.Ok? && countOfContent.Err? ==> r == Err(countOfContent.error)
    ensures overdue.Ok? && dueDate.Ok? && countOfContent.Ok? && addressed.Err? ==> r == Err(addressed.error)
    ensures overdue.Ok? && dueDate.Ok? && countOfContent.Ok? && addressed.Ok? && signoff.Err? ==> r == Err(signoff.error)
  {
    match overdue
    case Err(e) => Err(e)
    case Ok(o) =>
      match dueDate
      case Err(e) => Err(e)
      case Ok(d) =>
        match countOfContent
        case Err(e) => Err(e)
        case Ok(c) =>
          match addressed
          case Err(e) => Err(e)
          case Ok(a) =>
            match signoff
            case Err(e) => Err(e)
            case Ok(g) =>
              Ok(map["overdue" := o, "due_date" := d, "count_of_content" := c, "addressed_status" := a, "signoff_aging" := g])
  }

  /**
   * get_all_pivot_tables as written: the builders run in order and the
   * first error is the call's error. Without a base date the fallback
   * branch names `df`, which is not defined there.
   */
  function GetAllPivotTables(dfs: Sources, baseDay: Option<int>): (r: Result<map<string, Pivot>, PivotError>)
    ensures r.Ok? ==> r.value.Keys == PIVOT_NAMES
    ensures r.Ok? <==> && BuildOverduePivot(dfs.reviewNoteAging).Ok?
                       && baseDay.Some? && BuildDueDatePivot(dfs.reviewNoteAging, baseDay.value).Ok?
                       && BuildCountOfContentPivot(dfs.reviewNoteAging).Ok?
                       && BuildAddressedStatusPivot(dfs.reviewNoteAging).Ok?
                       && BuildSignoffAgingPivot(dfs.signoffAging).Ok?
    ensures r.Ok? ==> && baseDay.Some?
                      && r.value["overdue"] == BuildOverduePivot(dfs.reviewNoteAging).value
                      && r.value["due_date"] == BuildDueDatePivot(dfs.reviewNoteAging, baseDay.value).value
                      && r.value["count_of_content"] == BuildCountOfContentPivot(dfs.reviewNoteAging).value
                      && r.value["addressed_status"] == BuildAddressedStatusPivot(dfs.reviewNoteAging).value
                      && r.value["signoff_aging"] == BuildSignoffAgingPivot(dfs.signoffAging).value
    ensures BuildOverduePivot(dfs.reviewNoteAging).Ok? && baseDay.None? ==> r == Err(NameError("df"))
  {
    var dueDate := if baseDay.Some? then BuildDueDatePivot(dfs.reviewNoteAging, baseDay.value) else Err(NameError("df"));
    Collect(BuildOverduePivot(dfs.reviewNoteAging), dueDate, BuildCountOfContentPivot(dfs.reviewNoteAging),
            BuildAddressedStatusPivot(dfs.reviewNoteAging), BuildSignoffAgingPivot(dfs.signoffAging))
  }

  /**
   * The same run with the fallback the code evidently intends: without a
   * base date the due-date pivot is the empty pivot of the same index.
   * Having no rows, it has no value column either.
   */
  function GetAllPivotTablesWithFallback(dfs: Sources, baseDay: Option<int>): (r: Result<map<string, Pivot>, PivotError>)
    ensures r.Ok? ==> r.value.Keys == PIVOT_NAMES
    ensures r.Ok? <==> && BuildOverduePivot(dfs.reviewNoteAging).Ok?
                       && (baseDay.Some? ==> BuildDueDatePivot(dfs.reviewNoteAging, baseDay.value).Ok?)
                       && BuildCountOfContentPivot(dfs.reviewNoteAging).Ok?
                       && BuildAddressedStatusPivot(dfs.reviewNoteAging).Ok?
                       && BuildSignoffAgingPivot(dfs.signoffAging).Ok?
    ensures r.Ok? && baseDay.None? ==> r.value["due_date"] == Pivot(ASSIGNMENT_INDEX, [], [])
    ensures baseDay.Some? ==> r == GetAllPivotTables(dfs, baseDay)
  {
    var dueDate := if baseDay.Some? then BuildDueDatePivot(dfs.reviewNoteAging, baseDay.value)
                   else Ok(Pivot(ASSIGNMENT_INDEX, [], []));
    Collect(BuildOverduePivot(dfs.reviewNoteAging), dueDate, BuildCountOfContentPivot(dfs.reviewNoteAging),
            BuildAddressedStatusPivot(dfs.reviewNoteAging), BuildSignoffAgingPivot(dfs.signoffAging))
  }

  // ---------------------------------------------------------------------
  // Properties of the builders
  // ---------------------------------------------------------------------

  /** As written, a run without a base date fails once the overdue pivot is built. */
  lemma NoBaseDateRaisesNameError(dfs: Sources)
    requires BuildOverduePivot(dfs.reviewNoteAging).Ok?
    ensures GetAllPivotTables(dfs, None) == Err(NameError("df"))
    ensures GetAllPivotTablesWithFallback(dfs, None).Ok? <==>
              && BuildCountOfContentPivot(dfs.reviewNoteAging).Ok?
              && BuildAddressedStatusPivot(dfs.reviewNoteAging).Ok?
              && BuildSignoffAgingPivot(dfs.signoffAging).Ok?
  {
  }

  /** A note the filter rejects changes no count: appending it leaves the pivot as it was. */
  lemma NoteRejectedIsIgnored(rows: seq<ReviewNote>, n: ReviewNote, f: NoteFilter, ix: NoteIndex)
    requires !Admits(f, n)
    ensures NotePivotEntries(rows + [n], f, ix) == NotePivotEntries(rows, f, ix)
  {
    assert (rows + [n])[..|rows|] == rows;
  }

  /** A note with Aged missing or at most 0 contributes to no key of the overdue pivot. */
  lemma OverdueIgnoresNonPositiveAge(df: Frame<ReviewNote>, n: ReviewNote)
    requires n.aged.None? || n.aged.value <= 0.0
    ensures BuildOverduePivot(Frame(df.columns, df.rows + [n])) == BuildOverduePivot(df)
  {
    NoteRejectedIsIgnored(df.rows, n, AgedAboveZero, ByAssignment);
  }

  /** Only a Status of exactly "Addressed" is counted by the addressed pivot. */
  lemma AddressedIgnoresOtherStatus(df: Frame<ReviewNote>, n: ReviewNote)
    requires n.status != Some("Addressed")
    ensures BuildAddressedStatusPivot(Frame(df.columns, df.rows + [n])) == BuildAddressedStatusPivot(df)
  {
    NoteRejectedIsIgnored(df.rows, n, StatusIs("Addressed"), ByCreator);
  }

  /**
   * A filtered pivot loses its value column exactly when its filter lets no
   * note with both index levels through: no overdue note, none due within
   * 14 days, none addressed.
   */
  lemma FilteredPivotWithoutValueColumn(df: Frame<ReviewNote>, baseDay: int)
    ensures BuildOverduePivot(df).Ok? ==>
              (BuildOverduePivot(df).value.columns == [] <==>
                 forall i :: 0 <= i < |df.rows| ==> !(Admits(AgedAboveZero, df.rows[i]) && NoteKey(ByAssignment, df.rows[i]).Some?))
    ensures BuildDueDatePivot(df, baseDay).Ok? ==>
              (BuildDueDatePivot(df, baseDay).value.columns == [] <==>
                 forall i :: 0 <= i < |df.rows| ==> !(Admits(DueWithin14Days(baseDay), df.rows[i]) && NoteKey(ByAssignment, df.rows[i]).Some?))
    ensures BuildAddressedStatusPivot(df).Ok? ==>
              (BuildAddressedStatusPivot(df).value.columns == [] <==>
                 forall i :: 0 <= i < |df.rows| ==> !(Admits(StatusIs("Addressed"), df.rows[i]) && NoteKey(ByCreator, df.rows[i]).Some?))
  {
    NoteEntriesEmpty(df.rows, AgedAboveZero, ByAssignment);
    NoteEntriesEmpty(df.rows, DueWithin14Days(baseDay), ByAssignment);
    NoteEntriesEmpty(df.rows, StatusIs("Addressed"), ByCreator);
  }

  /**
   * A note with both index levels and a Content adds one to its key's count
   * exactly when the filter admits it.
   */
  lemma NoteCountedIff(rows: seq<ReviewNote>, n: ReviewNote, f: NoteFilter, ix: NoteIndex)
    requires NoteKey(ix, n).Some? && n.content.Some?
    ensures var k := NoteKey(ix, n).value;
      Lookup(NotePivotEntries(rows + [n], f, ix), k) == Lookup(NotePivotEntries(rows, f, ix), k) + (if Admits(f, n) then 1 else 0)
  {
    assert (rows + [n])[..|rows|] == rows;
  }

  /** The overdue pivot counts a note exactly when its Aged is present and above 0. */
  lemma OverdueCountsPositiveAge(df: Frame<ReviewNote>, n: ReviewNote)
    requires BuildOverduePivot(df).Ok?
    requires NoteKey(ByAssignment, n).Some? && n.content.Some?
    ensures var k := NoteKey(ByAssignment, n).value;
      var before := BuildOverduePivot(df).value.entries;
      var after := BuildOverduePivot(Frame(df.columns, df.rows + [n])).value.entries;
      (Lookup(after, k) == Lookup(before, k) + 1 <==> n.aged.Some? && n.aged.value > 0.0)
      && (Lookup(after, k) == Lookup(before, k) <==> !(n.aged.Some? && n.aged.value > 0.0))
  {
    NoteCountedIff(df.rows, n, AgedAboveZero, ByAssignment);
  }

  /**
   * The due-date pivot counts a note exactly when it is due 0 to 14 days
   * after the base day: due on the base day or 14 days later is in, a day
   * earlier or 15 days later is out.
   */
  lemma DueSoonWindow(df: Frame<ReviewNote>, baseDay: int, n: ReviewNote)
    requires BuildDueDatePivot(df, baseDay).Ok?
    requires NoteKey(ByAssignment, n).Some? && n.content.Some?
    ensures var k := NoteKey(ByAssignment, n).value;
      var before := BuildDueDatePivot(df, baseDay).value.entries;
      var after := BuildDueDatePivot(Frame(df.columns, df.rows + [n]), baseDay).value.entries;
      Lookup(after, k) == Lookup(before, k) + 1 <==> n.dueDate.Some? && baseDay <= n.dueDate.value <= baseDay + 14
  {
    NoteCountedIff(df.rows, n, DueWithin14Days(baseDay), ByAssignment);
  }

  /** The addressed pivot counts a note, under its creator, exactly when its Status is "Addressed". */
  lemma AddressedCountsExactStatus(df: Frame<ReviewNote>, n: ReviewNote)
    requires BuildAddressedStatusPivot(df).Ok?
    requires NoteKey(ByCreator, n).Some? && n.content.Some?
    ensures var k := NoteKey(ByCreator, n).value;
      var before := BuildAddressedStatusPivot(df).value.entries;
      var after := BuildAddressedStatusPivot(Frame(df.columns, df.rows + [n])).value.entries;
      Lookup(after, k) == Lookup(before, k) + 1 <==> n.status == Some("Addressed")
  {
    NoteCountedIff(df.rows, n, StatusIs("Addressed"), ByCreator);
  }

  lemma {:induction false} NoteCountWithinAll(rows: seq<ReviewNote>, f: NoteFilter, ix: NoteIndex, k: Key)
    ensures NoteCount(rows, f, ix, k) <= NoteCount(rows, AllNotes, ix, k)
  {
    if rows != [] {
      NoteCountWithinAll(rows[..|rows| - 1], f, ix, k);
    }
  }

  /**
   * The overdue and due-soon counts of a key never exceed its
   * count-of-content count, and they have no key it does not have: both
   * count a filtered part of the same notes.
   */
  lemma FilteredPivotsWithinCountOfContent(df: Frame<ReviewNote>, baseDay: int)
    requires BuildCountOfContentPivot(df).Ok?
    ensures var all := BuildCountOfContentPivot(df).value.entries;
            && (BuildOverduePivot(df).Ok? ==>
                  var overdue := BuildOverduePivot(df).value.entries;
                  KeySet(overdue) <= KeySet(all) && forall k :: Lookup(overdue, k) <= Lookup(all, k))
            && (BuildDueDatePivot(df, baseDay).Ok? ==>
                  var soon := BuildDueDatePivot(df, baseDay).value.entries;
                  KeySet(soon) <= KeySet(all) && forall k :: Lookup(soon, k) <= Lookup(all, k))
  {
    forall k, f: NoteFilter ensures NoteCount(df.rows, f, ByAssignment, k) <= NoteCount(df.rows, AllNotes, ByAssignment, k) {
      NoteCountWithinAll(df.rows, f, ByAssignment, k);
    }
  }

  /** Number of notes with both assignment levels and a non-null Content. */
  function KeyedContentNotes(rows: seq<ReviewNote>): nat {
    if rows == [] then 0
    else
      var n := rows[|rows| - 1];
      KeyedContentNotes(rows[..|rows| - 1]) + (if NoteKey(ByAssignment, n).Some? && n.content.Some? then 1 else 0)
  }

  lemma {:induction false} NoteObsCounted(rows: seq<ReviewNote>)
    ensures Counted(NoteObs(rows, AllNotes, ByAssignment)) == KeyedContentNotes(rows)
  {
    if rows != [] {
      var init := rows[..|rows| - 1];
      var n := rows[|rows| - 1];
      NoteObsCounted(init);
      var before := NoteObs(init, AllNotes, ByAssignment);
      if NoteKey(ByAssignment, n).Some? {
        var o := before + [Obs(NoteKey(ByAssignment, n).value, n.content.Some?)];
        assert o[..|o| - 1] == before;
      }
    }
  }

  /**
   * The count-of-content pivot has a row for every (Assigned group,
   * Allocated To) pair some note has, and no other; its counts add up to
   * the number of such notes whose Content is present.
   */
  lemma CountOfContentCoversEveryPair(df: Frame<ReviewNote>)
    requires BuildCountOfContentPivot(df).Ok?
    ensures var es := BuildCountOfContentPivot(df).value.entries;
            && (forall k :: k in KeySet(es) <==> exists i :: 0 <= i < |df.rows| && NoteKey(ByAssignment, df.rows[i]) == Some(k))
            && Total(es) == KeyedContentNotes(df.rows)
  {
    var es := NotePivotEntries(df.rows, AllNotes, ByAssignment);
    assert BuildCountOfContentPivot(df).value.entries == es;
    forall k ensures k in KeySet(es) <==> exists i :: 0 <= i < |df.rows| && NoteKey(ByAssignment, df.rows[i]) == Some(k) {
      assert forall i :: 0 <= i < |df.rows| ==> Admits(AllNotes, df.rows[i]);
    }
    NoteObsCounted(df.rows);
    assert Total(es) == Counted(NoteObs(df.rows, AllNotes, ByAssignment));
  }

  /** Records in the In-Charge or Senior role change no count of the signoff pivot. */
  lemma SignoffIgnoresInChargeAndSenior(df: Frame<SignoffRecord>, s: SignoffRecord)
    requires s.signoffRole == Some("In-Charge") || s.signoffRole == Some("Senior")
    ensures BuildSignoffAgingPivot(Frame(df.columns, df.rows + [s])) == BuildSignoffAgingPivot(df)
  {
    assert (df.rows + [s])[..|df.rows|] == df.rows;
  }

  /** Any other role, a missing one included, is counted under its Assignee. */
  lemma SignoffCountsOtherRoles(df: Frame<SignoffRecord>, s: SignoffRecord)
    requires BuildSignoffAgingPivot(df).Ok?
    requires s.signoffRole != Some("In-Charge") && s.signoffRole != Some("Senior")
    requires s.assignee.Some? && s.workflow.Some?
    ensures var before := BuildSignoffAgingPivot(df).value.entries;
            var after := BuildSignoffAgingPivot(Frame(df.columns, df.rows + [s])).value.entries;
            Lookup(after, [s.assignee.value]) == Lookup(before, [s.assignee.value]) + 1
  {
    assert (df.rows + [s])[..|df.rows|] == df.rows;
  }
}
