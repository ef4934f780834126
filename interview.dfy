/**
 * `import_clerk_interview_from_excel`: a sheet into `ClerkInterviewTracking`.
 * Columns are resolved field by field through `col_map` (exact, trimmed,
 * case-insensitive aliases); a field whose column is absent reads as "", and
 * the date as `None`.
 */
module InterviewImport {
  import opened Text
  import opened Cells
  import opened Columns
  import opened Rows

  /** The fields written for one interview: its date and the text fields by name. */
  datatype Entry = Entry(date: Option<Date>, text: map<string, string>)

  /** `col_map`: each field with its aliases, in order. */
  const ColMap: seq<(string, seq<string>)> := [
    ("no", ["NO", "No", "no", "#"]),
    ("dept_name_en", ["DEPT_NAME_EN", "DEPT NAME EN", "Dept Name En", "Department"]),
    ("date", ["Date", "date", "\U{0627}\U{0644}\U{062A}\U{0627}\U{0631}\U{064A}\U{062E}"]),
    ("clerk_name", ["Clerk Name", "ClerkName", "clerk_name", "Name"]),
    ("mobile", ["Mobile", "mobile", "\U{0645}\U{0648}\U{0628}\U{0627}\U{064A}\U{0644}"]),
    ("company", ["Company", "company"]),
    ("business", ["Business", "business", "Businees"]),
    ("account", ["Account", "account"]),
    ("system_used", ["System Used", "SystemUsed", "system_used"]),
    ("report_used", ["Report Used", "ReportUsed", "report_used"]),
    ("details", ["Details", "details"]),
    ("wh_visit_reasons", ["WH Visit Reasons", "WH Visit Resons", "WHVisitReasons", "wh_visit_reasons"]),
    ("physical_dependency", ["Physical Dependency", "PhysicalDependency", "physical_dependency"]),
    ("automation_potential", ["Automation Potential", "AutomationPotential", "automation_potential"]),
    ("ct_suitability", ["CT Suitability", "CT Suitbility", "CTSuitability", "ct_suitability"]),
    ("optimization_plan", ["Optimization Plan", "OptimizationPlan", "optimization_plan"])
  ]

  /** The fields written as text (every field but the date). */
  const TextFields: set<string> := {
    "no", "dept_name_en", "clerk_name", "mobile", "company", "business", "account",
    "system_used", "report_used", "details", "wh_visit_reasons", "physical_dependency",
    "automation_potential", "ct_suitability", "optimization_plan"
  }

  /** The date of a row: `None` without a resolved date column, else `_parse_date`
      of its cell. */
  function DateOf(found: map<string, nat>, row: Row, parseDate: string -> Option<Date>): (d: Option<Date>)
    ensures "date" !in found ==> d.None?
    ensures "date" in found && Get(row, found["date"]).Stamp? ==> d == Some(Get(row, found["date"]).day)
    ensures "date" in found && Clean(Get(row, found["date"])) == [] && !Get(row, found["date"]).Stamp? ==> d.None?
    ensures "date" in found && Get(row, found["date"]).NaT? ==> d == Some(NaTDay)
  {
    if "date" in found then ParseDate(Get(row, found["date"]), parseDate) else None
  }

  const NoKeyColumn := "Could not find at least one of: NO, Clerk Name, DEPT_NAME_EN, Date."

  /** The error recorded when none of the four key columns resolves; it does
      not stop the import. */
  function MissingColumns(found: map<string, nat>): (errs: seq<Problem>)
    ensures errs == [] <==> "no" in found || "clerk_name" in found || "dept_name_en" in found || "date" in found
    ensures errs != [] ==> errs == [Missing(NoKeyColumn)]
  {
    if "no" !in found && "clerk_name" !in found && "dept_name_en" !in found && "date" !in found
    then [Missing(NoKeyColumn)]
    else []
  }

  /** Whether a row has one of the values that identify an interview. */
  predicate HasKey(found: map<string, nat>, row: Row)
  {
    Value(found, row, "no") != [] || Value(found, row, "clerk_name") != [] || Value(found, row, "dept_name_en") != []
  }

  /** What the loop body makes of one row: nothing for a row whose every cell is
      empty or that has no NO, Clerk Name or DEPT_NAME_EN, else the entry. */
  function PlanRow(found: map<string, nat>, parseDate: string -> Option<Date>, row: Row): (r: Option<Entry>)
    ensures r.None? <==> AllEmpty(row) || !HasKey(found, row)
    ensures r.Some? ==> r.value.text.Keys == TextFields
    ensures r.Some? ==> forall f :: f in TextFields && f !in found ==> r.value.text[f] == []
    ensures r.Some? ==> forall f :: f in TextFields && f in found ==> r.value.text[f] == Clean(Get(row, found[f]))
    ensures r.Some? ==> r.value.date == DateOf(found, row, parseDate)
  {
    if AllEmpty(row) || !HasKey(found, row) then None
    else Some(Entry(DateOf(found, row, parseDate), map f | f in TextFields :: Value(found, row, f)))
  }

  function Planner(found: map<string, nat>, parseDate: string -> Option<Date>): Row -> Option<Entry>
  {
    row => PlanRow(found, parseDate, row)
  }

  /** What every created row satisfies: all text fields present, one of the
      key fields non-empty. */
  predicate WellFormed(e: Entry)
  {
    && e.text.Keys == TextFields
    && (e.text["no"] != [] || e.text["clerk_name"] != [] || e.text["dept_name_en"] != [])
  }

  predicate AllWellFormed(added: seq<Stored<Entry>>)
  {
    forall k :: 0 <= k < |added| ==> WellFormed(added[k].fields)
  }

  lemma PlannerWellFormed(found: map<string, nat>, parseDate: string -> Option<Date>)
    ensures forall row :: Planner(found, parseDate)(row).Some? ==> WellFormed(Planner(found, parseDate)(row).value)
  {
    forall row | Planner(found, parseDate)(row).Some?
      ensures WellFormed(Planner(found, parseDate)(row).value)
    {
      var r := PlanRow(found, parseDate, row);
      assert Planner(found, parseDate)(row) == r;
      assert "no" in TextFields && "clerk_name" in TextFields && "dept_name_en" in TextFields;
    }
  }

  /** The outcome of an import with the field aliases `colMap`. */
  function Imported(colMap: seq<(string, seq<string>)>, read: Outcome<Sheet>, parseDate: string -> Option<Date>,
                    top: nat, refuse: Stored<Entry> -> Option<string>): Tally<Entry>
  {
    match read
    case Failed(e) => Start([Unreadable(e)], top)
    case Got(sheet) =>
      if IsEmpty(sheet) then Start([EmptySheet], top)
      else Loaded(sheet, Resolved(colMap, FindIn(sheet.headers)), parseDate, top, refuse)
  }

  /** The import of a sheet that was read and is not empty, once `found_cols`
      is built: the missing-column error, if any, then the row loop. */
  function Loaded(sheet: Sheet, found: map<string, nat>, parseDate: string -> Option<Date>,
                  top: nat, refuse: Stored<Entry> -> Option<string>): Tally<Entry>
  {
    Run(sheet.rows, Planner(found, parseDate), refuse, Start(MissingColumns(found), top))
  }

  /** The importer. `parseDate` is pandas' `to_datetime` on text. */
  method Import(store: Store<Entry>, read: Outcome<Sheet>, parseDate: string -> Option<Date>)
    returns (created: nat, errors: seq<Problem>)
    modifies store
    ensures var t := Imported(ColMap, read, parseDate, old(store.Top()), store.refuse);
      created == t.created && errors == t.errors && store.records == old(store.records) + t.added
  {
    match read
    case Failed(e) =>
      return 0, [Unreadable(e)];
    case Got(sheet) =>
      if IsEmpty(sheet) {
        return 0, [EmptySheet];
      }
      var found := ResolveFields(sheet.headers, ColMap);
      var t := AppendRows(store, sheet.rows, Planner(found, parseDate), Start(MissingColumns(found), store.Top()));
      return t.created, t.errors;
  }

  /** Without a NO, Clerk Name or DEPT_NAME_EN column no row has a key, so
      nothing is created, whether or not a Date column was found. */
  lemma NoKeyColumnImportsNothing(sheet: Sheet, found: map<string, nat>, parseDate: string -> Option<Date>,
                                  top: nat, refuse: Stored<Entry> -> Option<string>)
    requires "no" !in found && "clerk_name" !in found && "dept_name_en" !in found
    ensures Loaded(sheet, found, parseDate, top, refuse) == Start(MissingColumns(found), top)
  {
    forall k | 0 <= k < |sheet.rows|
      ensures Planner(found, parseDate)(sheet.rows[k]).None?
    {
      assert Planner(found, parseDate)(sheet.rows[k]) == PlanRow(found, parseDate, sheet.rows[k]);
    }
    RunAllSkipped(sheet.rows, Planner(found, parseDate), refuse, Start(MissingColumns(found), top));
  }

  /** The import's bookkeeping: the missing-column error comes first, then the
      "Row n:" errors; every row the loop tries is created or reported; the
      count is the number of rows created, numbered above the previous maximum. */
  lemma ImportBookkeeping(sheet: Sheet, found: map<string, nat>, parseDate: string -> Option<Date>,
                          top: nat, refuse: Stored<Entry> -> Option<string>)
    ensures var t := Loaded(sheet, found, parseDate, top, refuse);
      && t.created == |t.added|
      && Ordered(t.added, top, t.last)
      && MissingColumns(found) <= t.errors
      && |t.added| + |t.errors| == |MissingColumns(found)| + Attempts(sheet.rows, Planner(found, parseDate))
  {
    RunBookkeeping(sheet.rows, Planner(found, parseDate), refuse, Start(MissingColumns(found), top), top);
    RunErrorLines(sheet.rows, Planner(found, parseDate), refuse, Start(MissingColumns(found), top));
  }

  /** When the table refuses every row (as it does once its columns no longer
      match what the importer writes), nothing is created, each row the loop
      tries is reported, and each still uses up an order number. */
  lemma EveryCreateRefused(sheet: Sheet, found: map<string, nat>, parseDate: string -> Option<Date>,
                           top: nat, refuse: Stored<Entry> -> Option<string>)
    requires forall r: Stored<Entry> :: refuse(r).Some?
    ensures var t := Loaded(sheet, found, parseDate, top, refuse);
      && t.created == 0 && t.added == []
      && |t.errors| == |MissingColumns(found)| + Attempts(sheet.rows, Planner(found, parseDate))
      && t.last == top + Attempts(sheet.rows, Planner(found, parseDate))
  {
    RunRefuseAll(sheet.rows, Planner(found, parseDate), refuse, Start(MissingColumns(found), top));
  }

  lemma StoredRowsWellFormed(sheet: Sheet, found: map<string, nat>, parseDate: string -> Option<Date>,
                             top: nat, refuse: Stored<Entry> -> Option<string>)
    ensures AllWellFormed(Loaded(sheet, found, parseDate, top, refuse).added)
  {
    PlannerWellFormed(found, parseDate);
    RunKeeps(sheet.rows, Planner(found, parseDate), refuse, Start(MissingColumns(found), top), WellFormed);
  }

  /** Every created interview has all its text fields and a NO, Clerk Name or
      DEPT_NAME_EN value. */
  lemma ImportStoresWellFormed(colMap: seq<(string, seq<string>)>, read: Outcome<Sheet>,
                               parseDate: string -> Option<Date>, top: nat,
                               refuse: Stored<Entry> -> Option<string>)
    ensures AllWellFormed(Imported(colMap, read, parseDate, top, refuse).added)
  {
    if read.Got? && !IsEmpty(read.value) {
      StoredRowsWellFormed(read.value, Resolved(colMap, FindIn(read.value.headers)), parseDate, top, refuse);
    }
  }
}
