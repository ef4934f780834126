/**
 * `import_potential_challenges_from_excel`: the "Potential_Challenges" sheet
 * (or, when it is missing, the workbook's first sheet) into
 * `PotentialChallenge` (Date | Challenges | Status | Progress % | Solutions).
 */
module ChallengesImport {
  import opened Text
  import opened Cells
  import opened Columns
  import opened Rows

  /** The fields written for one `PotentialChallenge`. */
  datatype Entry = Entry(date: string, challenges: string, status: Status, progressPct: int, solutions: string)

  /** Where each column sits, as `_find_column` resolves it. */
  datatype Cols = Cols(date: Option<nat>, challenges: Option<nat>, status: Option<nat>,
                       progress: Option<nat>, solutions: Option<nat>)

  /** The header names tried for each column, in order. */
  datatype Names = Names(date: seq<string>, challenges: seq<string>, status: seq<string>,
                         progress: seq<string>, solutions: seq<string>)

  /** The candidates the importer passes to `_find_column`. */
  const Aliases: Names := Names(
    ["Date", "date"],
    ["Challenges", "challenges"],
    ["Status", "status"],
    ["Progress %", "Progress%", "Progress", "progress %", "progress%", "progress"],
    ["Solutions", "solutions"])

  function Locate(headers: seq<string>, names: Names): Cols
  {
    Cols(FindChallenges(headers, names.date),
         FindChallenges(headers, names.challenges),
         FindChallenges(headers, names.status),
         FindChallenges(headers, names.progress),
         FindChallenges(headers, names.solutions))
  }

  const NoChallenges := "Column 'Challenges' not found. Available: "

  /** Only the Challenges column is required; its error lists the first twelve headers. */
  function MissingColumns(headers: seq<string>, cols: Cols): (errs: seq<Problem>)
    ensures errs == [] <==> cols.challenges.Some?
    ensures errs != [] ==> errs == [Missing(NoChallenges + Join(", ", Take(headers, 12)))]
  {
    if cols.challenges.None? then [Missing(NoChallenges + Join(", ", Take(headers, 12)))] else []
  }

  /** What the loop body makes of one row: nothing when Date and Challenges are
      both empty, else the entry it creates. */
  function PlanRow(cols: Cols, parse: string -> Option<real>, row: Row): (r: Option<Entry>)
    ensures r.None? <==> Field(row, cols.date) == [] && Field(row, cols.challenges) == []
    ensures r.Some? ==> r.value.date != [] && r.value.challenges != [] && r.value.solutions != []
    ensures r.Some? && Field(row, cols.date) != [] ==> r.value.date == Field(row, cols.date)
    ensures r.Some? && Field(row, cols.challenges) != [] ==> r.value.challenges == Field(row, cols.challenges)
    ensures r.Some? && Field(row, cols.solutions) != [] ==> r.value.solutions == Field(row, cols.solutions)
    ensures r.Some? && Field(row, cols.date) == [] ==> r.value.date == Dash
    ensures r.Some? && Field(row, cols.challenges) == [] ==> r.value.challenges == Dash
    ensures r.Some? && Field(row, cols.solutions) == [] ==> r.value.solutions == Dash
    ensures r.Some? && Field(row, cols.status) == [] ==> r.value.status == NotStarted
    ensures r.Some? && Field(row, cols.status) != [] ==> r.value.status == PlainStatus(Field(row, cols.status))
    ensures r.Some? ==> 0 <= r.value.progressPct <= 100
    ensures r.Some? && cols.progress.None? ==> r.value.progressPct == 0
    ensures r.Some? && cols.progress.Some? ==> r.value.progressPct == Progress(Get(row, cols.progress.value), parse)
  {
    var date := Field(row, cols.date);
    var challenges := Field(row, cols.challenges);
    if date == [] && challenges == [] then None
    else
      var statusRaw := Field(row, cols.status);
      var progress := match cols.progress
        case None => 0
        case Some(i) => Progress(Get(row, i), parse);
      Some(Entry(OrDash(date), OrDash(challenges),
                 if statusRaw == [] then NotStarted else PlainStatus(statusRaw),
                 progress, OrDash(Field(row, cols.solutions))))
  }

  /** A blank Date cell that pandas read as NaT is not empty to
      `_normalize_col`: the row is kept even with an empty Challenges cell,
      and is stored with the date "NaT". */
  lemma NaTDateRowKept(cols: Cols, parse: string -> Option<real>, row: Row)
    requires cols.date.Some? && cols.date.value < |row| && row[cols.date.value].NaT?
    ensures PlanRow(cols, parse, row).Some?
    ensures PlanRow(cols, parse, row).value.date == NaTText
  {
    assert Get(row, cols.date.value) == row[cols.date.value];
  }

  function Planner(cols: Cols, parse: string -> Option<real>): Row -> Option<Entry>
  {
    row => PlanRow(cols, parse, row)
  }

  /** What every created row satisfies. */
  predicate WellFormed(e: Entry)
  {
    e.date != [] && e.challenges != [] && e.solutions != [] && 0 <= e.progressPct <= 100
  }

  predicate AllWellFormed(added: seq<Stored<Entry>>)
  {
    forall k :: 0 <= k < |added| ==> WellFormed(added[k].fields)
  }

  lemma PlannerWellFormed(cols: Cols, parse: string -> Option<real>)
    ensures forall row :: Planner(cols, parse)(row).Some? ==> WellFormed(Planner(cols, parse)(row).value)
  {
    forall row | Planner(cols, parse)(row).Some?
      ensures WellFormed(Planner(cols, parse)(row).value)
    {
      var r := PlanRow(cols, parse, row);
      assert Planner(cols, parse)(row) == r;
    }
  }

  /** The outcome of an import with the candidates `names`. `named` is the read
      of the requested sheet, `sheets` the listing of the workbook's sheets and
      `readSheet` the read of a sheet by name. */
  function Imported(names: Names, named: Outcome<Sheet>, sheets: Outcome<seq<string>>,
                    readSheet: string -> Outcome<Sheet>, parse: string -> Option<real>, top: nat,
                    refuse: Stored<Entry> -> Option<string>): Tally<Entry>
  {
    match LoadWithFallback(named, sheets, readSheet)
    case Failed(e) => Start([Unreadable(e)], top)
    case Got(sheet) =>
      if IsEmpty(sheet) then Start([EmptySheet], top)
      else Loaded(sheet, Locate(sheet.headers, names), parse, top, refuse)
  }

  /** The import of a sheet that was read and is not empty, once its columns
      are located. */
  function Loaded(sheet: Sheet, cols: Cols, parse: string -> Option<real>, top: nat,
                  refuse: Stored<Entry> -> Option<string>): Tally<Entry>
  {
    var missing := MissingColumns(sheet.headers, cols);
    if missing != [] then Start(missing, top)
    else Run(sheet.rows, Planner(cols, parse), refuse, Start([], top))
  }

  /** The importer. */
  method Import(store: Store<Entry>, named: Outcome<Sheet>, sheets: Outcome<seq<string>>,
                readSheet: string -> Outcome<Sheet>, parse: string -> Option<real>)
    returns (created: nat, errors: seq<Problem>)
    modifies store
    ensures var t := Imported(Aliases, named, sheets, readSheet, parse, old(store.Top()), store.refuse);
      created == t.created && errors == t.errors && store.records == old(store.records) + t.added
  {
    var read := LoadWithFallback(named, sheets, readSheet);
    match read
    case Failed(e) =>
      return 0, [Unreadable(e)];
    case Got(sheet) =>
      if IsEmpty(sheet) {
        return 0, [EmptySheet];
      }
      var cols := Locate(sheet.headers, Aliases);
      var missing := MissingColumns(sheet.headers, cols);
      if missing != [] {
        return 0, missing;
      }
      var t := AppendRows(store, sheet.rows, Planner(cols, parse), Start([], store.Top()));
      return t.created, t.errors;
  }

  /** A missing Challenges column stops the import with its one message;
      the other columns are optional. */
  lemma ChallengesColumnRequired(sheet: Sheet, cols: Cols, parse: string -> Option<real>, top: nat,
                                 refuse: Stored<Entry> -> Option<string>)
    ensures var t := Loaded(sheet, cols, parse, top, refuse);
      (cols.challenges.None? ==> t.created == 0 && t.added == [] && |t.errors| == 1)
      && (cols.challenges.Some? ==> forall k :: 0 <= k < |t.errors| ==> t.errors[k].RowFailed?)
  {
    if cols.challenges.Some? {
      RunErrorLines(sheet.rows, Planner(cols, parse), refuse, Start([], top));
    }
  }

  /** The import's bookkeeping, as in every importer. */
  lemma ImportBookkeeping(sheet: Sheet, cols: Cols, parse: string -> Option<real>, top: nat,
                          refuse: Stored<Entry> -> Option<string>)
    ensures var t := Loaded(sheet, cols, parse, top, refuse);
      && t.created == |t.added|
      && Ordered(t.added, top, t.last)
      && (cols.challenges.Some? ==> |t.added| + |t.errors| == Attempts(sheet.rows, Planner(cols, parse)))
  {
    if cols.challenges.Some? {
      RunBookkeeping(sheet.rows, Planner(cols, parse), refuse, Start([], top), top);
    }
  }

  lemma RunWellFormed(rows: seq<Row>, cols: Cols, parse: string -> Option<real>,
                      refuse: Stored<Entry> -> Option<string>, top: nat)
    ensures AllWellFormed(Run(rows, Planner(cols, parse), refuse, Start([], top)).added)
  {
    PlannerWellFormed(cols, parse);
    RunKeeps(rows, Planner(cols, parse), refuse, Start([], top), WellFormed);
  }

  lemma StoredRowsWellFormed(sheet: Sheet, cols: Cols, parse: string -> Option<real>, top: nat,
                             refuse: Stored<Entry> -> Option<string>)
    ensures AllWellFormed(Loaded(sheet, cols, parse, top, refuse).added)
  {
    if cols.challenges.Some? {
      RunWellFormed(sheet.rows, cols, parse, refuse, top);
    }
  }

  /** Every created row has a non-empty date, challenge and solution (an empty
      one is stored as "—") and a progress in [0, 100]. */
  lemma ImportStoresWellFormed(names: Names, named: Outcome<Sheet>, sheets: Outcome<seq<string>>,
                               readSheet: string -> Outcome<Sheet>, parse: string -> Option<real>, top: nat,
                               refuse: Stored<Entry> -> Option<string>)
    ensures AllWellFormed(Imported(names, named, sheets, readSheet, parse, top, refuse).added)
  {
    var read := LoadWithFallback(named, sheets, readSheet);
    if read.Got? && !IsEmpty(read.value) {
      StoredRowsWellFormed(read.value, Locate(read.value.headers, names), parse, top, refuse);
    }
  }

  /** A missing requested sheet is answered with the workbook's first sheet:
      when the read error says the sheet was not found and the workbook lists
      a first sheet, the import is the import of that sheet. */
  lemma FirstSheetFallback(names: Names, e: string, first: string, rest: seq<string>,
                           readSheet: string -> Outcome<Sheet>, parse: string -> Option<real>, top: nat,
                           refuse: Stored<Entry> -> Option<string>)
    requires ShouldFallBack(e) && first != []
    ensures Imported(names, Failed(e), Got([first] + rest), readSheet, parse, top, refuse)
         == Imported(names, readSheet(first), Got([first]), readSheet, parse, top, refuse)
  {
    assert LoadWithFallback(Failed(e), Got([first] + rest), readSheet) == readSheet(first);
    assert LoadWithFallback(readSheet(first), Got([first]), readSheet) == readSheet(first);
  }

  /** A workbook without sheets reports the original read error. */
  lemma NoSheetsReportsOriginalError(names: Names, e: string, readSheet: string -> Outcome<Sheet>,
                                     parse: string -> Option<real>, top: nat,
                                     refuse: Stored<Entry> -> Option<string>)
    requires ShouldFallBack(e)
    ensures Imported(names, Failed(e), Got([]), readSheet, parse, top, refuse).errors == [Unreadable(e)]
    ensures Imported(names, Failed(e), Got([[]]), readSheet, parse, top, refuse).errors == [Unreadable(e)]
  {
  }
}
