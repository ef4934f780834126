/**
 * `import_clerk_details_from_excel`: the "interview" sheet of
 * Clerk_details.xlsx into `ClerkDetail`, one row per person named in the
 * DEPT_NAME_EN column (the sidebar key).
 */
module DetailsImport {
  import opened Text
  import opened Cells
  import opened Columns
  import opened Rows

  /** The fields written for one `ClerkDetail`, by name; all are text. */
  datatype Entry = Entry(text: map<string, string>)

  /** `col_map`: each field with its aliases, in order ("Name" is an alias of
      the DEPT_NAME_EN field). */
  const ColMap: seq<(string, seq<string>)> := [
    ("dept_name_en", ["DEPT_NAME_EN", "Dept Name En", "dept_name_en", "Name", "Person Name"]),
    ("department", ["Department", "department", "DEPT"]),
    ("company", ["Company", "company"]),
    ("business", ["Business", "business"]),
    ("account", ["Account", "account"]),
    ("mobile", ["Mobile", "mobile", "Phone"]),
    ("interview_date", ["Interview Date", "InterviewDate", "interview_date", "Date"]),
    ("work_details", ["Work Details", "WorkDetails", "work_details", "Details", "Process Note"]),
    ("reports_used", ["Reports Used", "ReportsUsed", "reports_used"]),
    ("system_badge", ["System", "System Used", "system_badge", "System Used", "Tag", "Badge"])
  ]

  /** The fields written. */
  const Fields: set<string> := {
    "dept_name_en", "department", "company", "business", "account", "mobile",
    "interview_date", "work_details", "reports_used", "system_badge"
  }

  const NoDeptColumn := "Could not find column: DEPT_NAME_EN (required for sidebar)."

  /** The error recorded when the DEPT_NAME_EN column is missing; it does not
      stop the import. */
  function MissingColumns(found: map<string, nat>): (errs: seq<Problem>)
    ensures errs == [] <==> "dept_name_en" in found
    ensures errs != [] ==> errs == [Missing(NoDeptColumn)]
  {
    if "dept_name_en" !in found then [Missing(NoDeptColumn)] else []
  }

  /** What the loop body makes of one row: nothing for a row whose every cell is
      empty or whose DEPT_NAME_EN is empty, else the entry. */
  function PlanRow(found: map<string, nat>, row: Row): (r: Option<Entry>)
    ensures r.None? <==> AllEmpty(row) || Value(found, row, "dept_name_en") == []
    ensures r.Some? ==> r.value.text.Keys == Fields
    ensures r.Some? ==> forall f :: f in Fields && f !in found ==> r.value.text[f] == []
    ensures r.Some? ==> forall f :: f in Fields && f in found ==> r.value.text[f] == Clean(Get(row, found[f]))
  {
    if AllEmpty(row) || Value(found, row, "dept_name_en") == [] then None
    else Some(Entry(map f | f in Fields :: Value(found, row, f)))
  }

  function Planner(found: map<string, nat>): Row -> Option<Entry>
  {
    row => PlanRow(found, row)
  }

  /** What every created row satisfies: all fields present, a non-empty name. */
  predicate WellFormed(e: Entry)
  {
    e.text.Keys == Fields && e.text["dept_name_en"] != []
  }

  predicate AllWellFormed(added: seq<Stored<Entry>>)
  {
    forall k :: 0 <= k < |added| ==> WellFormed(added[k].fields)
  }

  lemma PlannerWellFormed(found: map<string, nat>)
    ensures forall row :: Planner(found)(row).Some? ==> WellFormed(Planner(found)(row).value)
  {
    forall row | Planner(found)(row).Some?
      ensures WellFormed(Planner(found)(row).value)
    {
      var r := PlanRow(found, row);
      assert Planner(found)(row) == r;
      assert "dept_name_en" in Fields;
    }
  }

  /** The outcome of an import with the field aliases `colMap`. */
  function Imported(colMap: seq<(string, seq<string>)>, read: Outcome<Sheet>, top: nat,
                    refuse: Stored<Entry> -> Option<string>): Tally<Entry>
  {
    match read
    case Failed(e) => Start([Unreadable(e)], top)
    case Got(sheet) =>
      if IsEmpty(sheet) then Start([EmptySheet], top)
      else Loaded(sheet, Resolved(colMap, FindIn(sheet.headers)), top, refuse)
  }

  /** The import of a sheet that was read and is not empty, once `found_cols`
      is built. */
  function Loaded(sheet: Sheet, found: map<string, nat>, top: nat,
                  refuse: Stored<Entry> -> Option<string>): Tally<Entry>
  {
    Run(sheet.rows, Planner(found), refuse, Start(MissingColumns(found), top))
  }

  /** The importer. */
  method Import(store: Store<Entry>, read: Outcome<Sheet>) returns (created: nat, errors: seq<Problem>)
    modifies store
    ensures var t := Imported(ColMap, read, old(store.Top()), store.refuse);
      created == t.created && errors == t.errors && store.records == old(store.records) + t.added
  {
    match read
    case Failed(e) =>
      return 0, [Unreadable(e)];
    case Got(sheet) =>
      if IsEmpty(sheet) {
        return 0, [EmptySheet];
      }
      var found := ResolveFields(sheet.headers, ColMap);
      var t := AppendRows(store, sheet.rows, Planner(found), Start(MissingColumns(found), store.Top()));
      return t.created, t.errors;
  }

  /** Without a DEPT_NAME_EN column every row's name is empty, so every row is
      skipped: the import reports the missing column and creates nothing. */
  lemma NoDeptColumnImportsNothing(sheet: Sheet, found: map<string, nat>, top: nat,
                                   refuse: Stored<Entry> -> Option<string>)
    requires "dept_name_en" !in found
    ensures Loaded(sheet, found, top, refuse) == Start([Missing(NoDeptColumn)], top)
  {
    forall k | 0 <= k < |sheet.rows|
      ensures Planner(found)(sheet.rows[k]).None?
    {
      assert Planner(found)(sheet.rows[k]) == PlanRow(found, sheet.rows[k]);
    }
    RunAllSkipped(sheet.rows, Planner(found), refuse, Start(MissingColumns(found), top));
  }

  /** The import's bookkeeping: `created_count` counts only successful creates,
      every row the loop tries is created or reported, and created rows are
      numbered strictly increasing above the previous maximum. */
  lemma ImportBookkeeping(sheet: Sheet, found: map<string, nat>, top: nat,
                          refuse: Stored<Entry> -> Option<string>)
    ensures var t := Loaded(sheet, found, top, refuse);
      && t.created == |t.added|
      && Ordered(t.added, top, t.last)
      && MissingColumns(found) <= t.errors
      && |t.added| + |t.errors| == |MissingColumns(found)| + Attempts(sheet.rows, Planner(found))
  {
    RunBookkeeping(sheet.rows, Planner(found), refuse, Start(MissingColumns(found), top), top);
    RunErrorLines(sheet.rows, Planner(found), refuse, Start(MissingColumns(found), top));
  }

  lemma StoredRowsWellFormed(sheet: Sheet, found: map<string, nat>, top: nat,
                             refuse: Stored<Entry> -> Option<string>)
    ensures AllWellFormed(Loaded(sheet, found, top, refuse).added)
  {
    PlannerWellFormed(found);
    RunKeeps(sheet.rows, Planner(found), refuse, Start(MissingColumns(found), top), WellFormed);
  }

  /** Every created row has all its fields and a non-empty DEPT_NAME_EN. */
  lemma ImportStoresWellFormed(colMap: seq<(string, seq<string>)>, read: Outcome<Sheet>, top: nat,
                               refuse: Stored<Entry> -> Option<string>)
    ensures AllWellFormed(Imported(colMap, read, top, refuse).added)
  {
    if read.Got? && !IsEmpty(read.value) {
      StoredRowsWellFormed(read.value, Resolved(colMap, FindIn(read.value.headers)), top, refuse);
    }
  }
}
