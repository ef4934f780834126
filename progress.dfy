/**
 * `import_progress_status_from_excel`: "Sheet1" of Quick_wins.xlsx (or the
 * workbook's first sheet) into `ProgressStatus` (Clerk | Account | Remark |
 * Status).
 */
module ProgressImport {
  import opened Text
  import opened Cells
  import opened Columns
  import opened Rows

  /** The fields written for one `ProgressStatus`. */
  datatype Entry = Entry(clerk: string, account: string, remark: string, status: Status)

  datatype Cols = Cols(clerk: Option<nat>, account: Option<nat>, remark: Option<nat>, status: Option<nat>)

  /** The header names tried for each column, in order. */
  datatype Names = Names(clerk: seq<string>, account: seq<string>, remark: seq<string>, status: seq<string>)

  /** The candidates the importer passes to its `_find_column` (misspelling included). */
  const Aliases: Names := Names(
    ["Clerk", "clerk"],
    ["Account", "Accunt", "account"],
    ["Remark", "remark", "Remarks"],
    ["Status", "status"])

  function Locate(headers: seq<string>, names: Names): Cols
  {
    Cols(FindSpaceFree(headers, names.clerk),
         FindSpaceFree(headers, names.account),
         FindSpaceFree(headers, names.remark),
         FindSpaceFree(headers, names.status))
  }

  const NoKeyColumn := "Could not find at least one of: Clerk, Account."

  /** The error recorded when neither key column is found. It does not stop the import. */
  function MissingColumns(cols: Cols): (errs: seq<Problem>)
    ensures errs == [] <==> cols.clerk.Some? || cols.account.Some?
    ensures errs != [] ==> errs == [Missing(NoKeyColumn)]
  {
    if cols.clerk.None? && cols.account.None? then [Missing(NoKeyColumn)] else []
  }

  /** What the loop body makes of one row: nothing for a row whose every cell is
      empty, nothing when Clerk and Account are both empty, else the entry. */
  function PlanRow(cols: Cols, row: Row): (r: Option<Entry>)
    ensures r.None? <==> AllEmpty(row) || (Field(row, cols.clerk) == [] && Field(row, cols.account) == [])
    ensures r.Some? ==> r.value.clerk == Field(row, cols.clerk) && r.value.account == Field(row, cols.account)
    ensures r.Some? ==> r.value.clerk != [] || r.value.account != []
    ensures r.Some? ==> r.value.remark == Field(row, cols.remark)
    ensures r.Some? && Field(row, cols.status) == [] ==> r.value.status == NotStarted
    ensures r.Some? && Field(row, cols.status) != [] ==> r.value.status == PlainStatus(Field(row, cols.status))
  {
    if AllEmpty(row) then None
    else
      var clerk := Field(row, cols.clerk);
      var account := Field(row, cols.account);
      if clerk == [] && account == [] then None
      else
        var statusRaw := Field(row, cols.status);
        Some(Entry(clerk, account, Field(row, cols.remark),
                   if statusRaw == [] then NotStarted else PlainStatus(statusRaw)))
  }

  function Planner(cols: Cols): Row -> Option<Entry>
  {
    row => PlanRow(cols, row)
  }

  /** What every created row satisfies. */
  predicate WellFormed(e: Entry)
  {
    e.clerk != [] || e.account != []
  }

  predicate AllWellFormed(added: seq<Stored<Entry>>)
  {
    forall k :: 0 <= k < |added| ==> WellFormed(added[k].fields)
  }

  lemma PlannerWellFormed(cols: Cols)
    ensures forall row :: Planner(cols)(row).Some? ==> WellFormed(Planner(cols)(row).value)
  {
    forall row | Planner(cols)(row).Some?
      ensures WellFormed(Planner(cols)(row).value)
    {
      var r := PlanRow(cols, row);
      assert Planner(cols)(row) == r;
    }
  }

  /** The outcome of an import with the candidates `names`, reading as the
      challenges importer does (first sheet when the named one is missing). */
  function Imported(names: Names, named: Outcome<Sheet>, sheets: Outcome<seq<string>>,
                    readSheet: string -> Outcome<Sheet>, top: nat,
                    refuse: Stored<Entry> -> Option<string>): Tally<Entry>
  {
    match LoadWithFallback(named, sheets, readSheet)
    case Failed(e) => Start([Unreadable(e)], top)
    case Got(sheet) =>
      if IsEmpty(sheet) then Start([EmptySheet], top)
      else Loaded(sheet, Locate(sheet.headers, names), top, refuse)
  }

  /** The import of a sheet that was read and is not empty: the missing-column
      error, if any, is recorded and the rows are imported anyway. */
  function Loaded(sheet: Sheet, cols: Cols, top: nat, refuse: Stored<Entry> -> Option<string>): Tally<Entry>
  {
    Run(sheet.rows, Planner(cols), refuse, Start(MissingColumns(cols), top))
  }

  /** The importer. */
  method Import(store: Store<Entry>, named: Outcome<Sheet>, sheets: Outcome<seq<string>>,
                readSheet: string -> Outcome<Sheet>)
    returns (created: nat, errors: seq<Problem>)
    modifies store
    ensures var t := Imported(Aliases, named, sheets, readSheet, old(store.Top()), store.refuse);
      created == t.created && errors == t.errors && store.records == old(store.records) + t.added
  {
    var read := LoadWithFallback(named, sheets, readSheet);
    match read
    case Failed(e) =>
      return 0, [Unreadable(e)];
    case Got(sheet) =>
      if IsEmpty(sheet) {
        return 0, [EmptySheet];
      }
      var cols := Locate(sheet.headers, Aliases);
      var t := AppendRows(store, sheet.rows, Planner(cols), Start(MissingColumns(cols), store.Top()));
      return t.created, t.errors;
  }

  /** Without a Clerk or an Account column no row has a key, so the import
      creates nothing and reports only the missing columns. */
  /** A missing requested sheet is answered with the workbook's first sheet,
      as in the challenges importer. */
  lemma FirstSheetFallback(names: Names, e: string, first: string, rest: seq<string>,
                           readSheet: string -> Outcome<Sheet>, top: nat,
                           refuse: Stored<Entry> -> Option<string>)
    requires ShouldFallBack(e) && first != []
    ensures Imported(names, Failed(e), Got([first] + rest), readSheet, top, refuse)
         == Imported(names, readSheet(first), Got([first]), readSheet, top, refuse)
  {
    assert LoadWithFallback(Failed(e), Got([first] + rest), readSheet) == readSheet(first);
    assert LoadWithFallback(readSheet(first), Got([first]), readSheet) == readSheet(first);
  }

  /** A failed sheet listing is reported as the listing's error. */
  lemma FailedListingReported(names: Names, e: string, e2: string, readSheet: string -> Outcome<Sheet>, top: nat,
                              refuse: Stored<Entry> -> Option<string>)
    requires ShouldFallBack(e)
    ensures Imported(names, Failed(e), Failed(e2), readSheet, top, refuse).errors == [Unreadable(e2)]
  {
  }

  lemma NoKeyColumnImportsNothing(sheet: Sheet, cols: Cols, top: nat, refuse: Stored<Entry> -> Option<string>)
    requires cols.clerk.None? && cols.account.None?
    ensures Loaded(sheet, cols, top, refuse) == Start([Missing(NoKeyColumn)], top)
  {
    forall k | 0 <= k < |sheet.rows|
      ensures Planner(cols)(sheet.rows[k]).None?
    {
      assert Planner(cols)(sheet.rows[k]) == PlanRow(cols, sheet.rows[k]);
    }
    RunAllSkipped(sheet.rows, Planner(cols), refuse, Start(MissingColumns(cols), top));
  }

  /** The import's bookkeeping: the missing-column error comes first, then one
      "Row n:" error per row that could not be created, in sheet order; the
      count is the number of rows created, numbered above the previous maximum. */
  lemma ImportBookkeeping(sheet: Sheet, cols: Cols, top: nat, refuse: Stored<Entry> -> Option<string>)
    ensures var t := Loaded(sheet, cols, top, refuse);
      && t.created == |t.added|
      && Ordered(t.added, top, t.last)
      && MissingColumns(cols) <= t.errors
      && |t.added| + |t.errors| == |MissingColumns(cols)| + Attempts(sheet.rows, Planner(cols))
      && forall k :: |MissingColumns(cols)| <= k < |t.errors| ==> t.errors[k].RowFailed?
  {
    RunBookkeeping(sheet.rows, Planner(cols), refuse, Start(MissingColumns(cols), top), top);
    RunErrorLines(sheet.rows, Planner(cols), refuse, Start(MissingColumns(cols), top));
  }

  lemma StoredRowsWellFormed(sheet: Sheet, cols: Cols, top: nat, refuse: Stored<Entry> -> Option<string>)
    ensures AllWellFormed(Loaded(sheet, cols, top, refuse).added)
  {
    var t0: Tally<Entry> := Start(MissingColumns(cols), top);
    PlannerWellFormed(cols);
    RunKeeps(sheet.rows, Planner(cols), refuse, t0, WellFormed);
  }

  /** Every created row has a clerk or an account. */
  lemma ImportStoresWellFormed(names: Names, named: Outcome<Sheet>, sheets: Outcome<seq<string>>,
                               readSheet: string -> Outcome<Sheet>, top: nat,
                               refuse: Stored<Entry> -> Option<string>)
    ensures AllWellFormed(Imported(names, named, sheets, readSheet, top, refuse).added)
  {
    var read := LoadWithFallback(named, sheets, readSheet);
    if read.Got? && !IsEmpty(read.value) {
      StoredRowsWellFormed(read.value, Locate(read.value.headers, names), top, refuse);
    }
  }
}
