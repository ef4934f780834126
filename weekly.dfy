/**
 * `import_weekly_tracker_from_excel`: the "Weekly Tracker" sheet into
 * `WeeklyProjectTrackerRow` (Week | Task | Status | Progress % | Impact).
 */
module WeeklyImport {
  import opened Text
  import opened Cells
  import opened Columns
  import opened Rows

  /** The fields written for one `WeeklyProjectTrackerRow`. */
  datatype Entry = Entry(week: string, task: string, status: Status, progressPct: int, impact: string)

  /** Where each column sits, as `_find_column` resolves it. */
  datatype Cols = Cols(week: Option<nat>, task: Option<nat>, status: Option<nat>,
                       progress: Option<nat>, impact: Option<nat>)

  /** The header names tried for each column, in order. */
  datatype Names = Names(week: seq<string>, task: seq<string>, status: seq<string>,
                         progress: seq<string>, impact: seq<string>)

  /** The candidates the importer passes to `_find_column`. */
  const Aliases: Names := Names(
    ["Week", "week"],
    ["Task", "task"],
    ["Status", "status"],
    ["Progress %", "Progress%", "Progress", "progress %", "progress%", "progress",
     "Progress (%)", "Progress % ", "% Progress"],
    ["Impact", "impact"])

  function Locate(headers: seq<string>, names: Names): Cols
  {
    Cols(FindWeekly(headers, names.week),
         FindWeekly(headers, names.task),
         FindWeekly(headers, names.status),
         FindWeekly(headers, names.progress),
         FindWeekly(headers, names.impact))
  }

  const NoWeek := "Column 'Week' not found."
  const NoTask := "Column 'Task' not found."
  const NoProgress := "Column 'Progress %' (or similar) not found. Available columns: "

  /** The errors for the three required columns, in the order they are checked;
      the progress error lists the first ten headers. */
  function MissingColumns(headers: seq<string>, cols: Cols): (errs: seq<Problem>)
    ensures errs == [] <==> cols.week.Some? && cols.task.Some? && cols.progress.Some?
    ensures |errs| <= 3
    ensures forall k :: 0 <= k < |errs| ==> errs[k].Missing?
    ensures cols.week.None? ==> errs[0] == Missing(NoWeek)
    ensures cols.progress.None? ==>
      errs[|errs| - 1] == Missing(NoProgress + Join(", ", Take(headers, 10)))
  {
    (if cols.week.None? then [Missing(NoWeek)] else [])
    + (if cols.task.None? then [Missing(NoTask)] else [])
    + (if cols.progress.None?
       then [Missing(NoProgress + Join(", ", Take(headers, 10)))]
       else [])
  }

  /** What the loop body makes of one row: nothing when Week and Task are both
      empty, else the entry it creates. */
  function PlanRow(cols: Cols, parse: string -> Option<real>, row: Row): (r: Option<Entry>)
    ensures r.None? <==> Field(row, cols.week) == [] && Field(row, cols.task) == []
    ensures r.Some? ==> r.value.week != [] && r.value.task != []
    ensures r.Some? && Field(row, cols.week) != [] ==> r.value.week == Field(row, cols.week)
    ensures r.Some? && Field(row, cols.task) != [] ==> r.value.task == Field(row, cols.task)
    ensures r.Some? && Field(row, cols.week) == [] ==> r.value.week == Dash
    ensures r.Some? && Field(row, cols.task) == [] ==> r.value.task == Dash
    ensures r.Some? && Field(row, cols.status) == [] ==> r.value.status == NotStarted
    ensures r.Some? && Field(row, cols.status) != [] ==> r.value.status == WeeklyStatus(Field(row, cols.status))
    ensures r.Some? ==> 0 <= r.value.progressPct <= 100
    ensures r.Some? && cols.progress.None? ==> r.value.progressPct == 0
    ensures r.Some? && cols.progress.Some? ==> r.value.progressPct == Progress(Get(row, cols.progress.value), parse)
    ensures r.Some? ==> r.value.impact == Field(row, cols.impact)
  {
    var week := Field(row, cols.week);
    var task := Field(row, cols.task);
    if week == [] && task == [] then None
    else
      var statusRaw := Field(row, cols.status);
      var progress := match cols.progress
        case None => 0
        case Some(i) => Progress(Get(row, i), parse);
      Some(Entry(OrDash(week), OrDash(task),
                 if statusRaw == [] then NotStarted else WeeklyStatus(statusRaw),
                 progress, Field(row, cols.impact)))
  }

  /** What every created row satisfies. */
  predicate WellFormed(e: Entry)
  {
    e.week != [] && e.task != [] && 0 <= e.progressPct <= 100
  }

  predicate AllWellFormed(added: seq<Stored<Entry>>)
  {
    forall k :: 0 <= k < |added| ==> WellFormed(added[k].fields)
  }

  lemma PlannerWellFormed(cols: Cols, parse: string -> Option<real>)
    ensures forall row :: Planner(cols, parse)(row).Some? ==> WellFormed(Planner(cols, parse)(row).value)
  {
    forall row | Planner(cols, parse)(row).Some?
      ensures WellFormed(Planner(cols, parse)(row).value)
    {
      var r := PlanRow(cols, parse, row);
      assert Planner(cols, parse)(row) == r;
    }
  }

  function Planner(cols: Cols, parse: string -> Option<real>): Row -> Option<Entry>
  {
    row => PlanRow(cols, parse, row)
  }

  /** The outcome of an import with the candidates `names`: the created rows,
      `created_count`, `errors` and the final counter, from a read of the sheet
      and the table's maximum order. */
  function Imported(names: Names, read: Outcome<Sheet>, parse: string -> Option<real>, top: nat,
                    refuse: Stored<Entry> -> Option<string>): Tally<Entry>
  {
    match read
    case Failed(e) => Start([Unreadable(e)], top)
    case Got(sheet) =>
      if IsEmpty(sheet) then Start([EmptySheet], top)
      else Loaded(sheet, Locate(sheet.headers, names), parse, top, refuse)
  }

  /** The import of a sheet that was read and is not empty, once its columns
      are located. */
  function Loaded(sheet: Sheet, cols: Cols, parse: string -> Option<real>, top: nat,
                  refuse: Stored<Entry> -> Option<string>): Tally<Entry>
  {
    var missing := MissingColumns(sheet.headers, cols);
    if missing != [] then Start(missing, top)
    else Run(sheet.rows, Planner(cols, parse), refuse, Start([], top))
  }

  /** The importer. `read` is `pd.read_excel` of the sheet and `parse` Python's
      `float` on text. */
  method Import(store: Store<Entry>, read: Outcome<Sheet>, parse: string -> Option<real>)
    returns (created: nat, errors: seq<Problem>)
    modifies store
    ensures var t := Imported(Aliases, read, parse, old(store.Top()), store.refuse);
      created == t.created && errors == t.errors && store.records == old(store.records) + t.added
  {
    match read
    case Failed(e) =>
      return 0, [Unreadable(e)];
    case Got(sheet) =>
      if IsEmpty(sheet) {
        return 0, [EmptySheet];
      }
      var cols := Locate(sheet.headers, Aliases);
      var missing := MissingColumns(sheet.headers, cols);
      if missing != [] {
        return 0, missing;
      }
      var t := AppendRows(store, sheet.rows, Planner(cols, parse), Start([], store.Top()));
      return t.created, t.errors;
  }

  /** A missing Week, Task or Progress column stops the import before any row:
      nothing is created and the errors are exactly the missing-column messages. */
  lemma MissingColumnStopsImport(sheet: Sheet, cols: Cols, parse: string -> Option<real>, top: nat,
                                 refuse: Stored<Entry> -> Option<string>)
    requires cols.week.None? || cols.task.None? || cols.progress.None?
    ensures var t := Loaded(sheet, cols, parse, top, refuse);
      t.created == 0 && t.added == [] && 1 <= |t.errors| <= 3
      && forall k :: 0 <= k < |t.errors| ==> t.errors[k].Missing?
  {
  }

  /** The import's bookkeeping: the count is the number of rows created; each
      row the loop tries ends as a created row or a "Row n:" error; created rows
      are numbered above the table's previous maximum, strictly increasing. */
  lemma ImportBookkeeping(sheet: Sheet, cols: Cols, parse: string -> Option<real>, top: nat,
                          refuse: Stored<Entry> -> Option<string>)
    ensures var t := Loaded(sheet, cols, parse, top, refuse);
      && t.created == |t.added|
      && Ordered(t.added, top, t.last)
      && (MissingColumns(sheet.headers, cols) == [] ==>
            |t.added| + |t.errors| == Attempts(sheet.rows, Planner(cols, parse)))
  {
    if MissingColumns(sheet.headers, cols) == [] {
      RunBookkeeping(sheet.rows, Planner(cols, parse), refuse, Start([], top), top);
    }
  }

  lemma RunWellFormed(rows: seq<Row>, cols: Cols, parse: string -> Option<real>,
                      refuse: Stored<Entry> -> Option<string>, top: nat)
    ensures AllWellFormed(Run(rows, Planner(cols, parse), refuse, Start([], top)).added)
  {
    PlannerWellFormed(cols, parse);
    RunKeeps(rows, Planner(cols, parse), refuse, Start([], top), WellFormed);
  }

  /** Every created row has a non-empty week and task (an empty one is stored
      as "—") and a progress in [0, 100]. */
  lemma StoredRowsWellFormed(sheet: Sheet, cols: Cols, parse: string -> Option<real>, top: nat,
                             refuse: Stored<Entry> -> Option<string>)
    ensures AllWellFormed(Loaded(sheet, cols, parse, top, refuse).added)
  {
    if MissingColumns(sheet.headers, cols) == [] {
      RunWellFormed(sheet.rows, cols, parse, refuse, top);
    }
  }

  /** A sheet whose rows all have an empty Week and Task imports nothing and
      reports nothing beyond missing columns. */
  lemma RowsWithoutWeekOrTaskIgnored(sheet: Sheet, cols: Cols, parse: string -> Option<real>, top: nat,
                                     refuse: Stored<Entry> -> Option<string>)
    requires forall k :: 0 <= k < |sheet.rows| ==>
      Field(sheet.rows[k], cols.week) == [] && Field(sheet.rows[k], cols.task) == []
    ensures var t := Loaded(sheet, cols, parse, top, refuse);
      t.created == 0 && t.added == [] && forall k :: 0 <= k < |t.errors| ==> t.errors[k].Missing?
  {
    if MissingColumns(sheet.headers, cols) == [] {
      RunAllSkipped(sheet.rows, Planner(cols, parse), refuse, Start([], top));
    }
  }

  /** Whatever the sheet, every row the importer stores is well formed. */
  lemma ImportStoresWellFormed(names: Names, read: Outcome<Sheet>, parse: string -> Option<real>, top: nat,
                               refuse: Stored<Entry> -> Option<string>)
    ensures AllWellFormed(Imported(names, read, parse, top, refuse).added)
  {
    if read.Got? && !IsEmpty(read.value) {
      StoredRowsWellFormed(read.value, Locate(read.value.headers, names), parse, top, refuse);
    }
  }
}
