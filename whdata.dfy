/**
 * `import_wh_data_rows_from_excel`: the "part_2" sheet into `WHDataRow`
 * (WH | Emp No | Full Name | Busines | Business 2). Each row's business names
 * are looked up among the business units by exact name and created when no
 * unit has that name yet.
 */
module WhDataImport {
  import opened Text
  import opened Cells
  import opened Columns
  import opened Rows

  // ---------------------------------------------------------------------
  // Business units

  /** The first unit with exactly this name, in table order. */
  function FirstNamed(names: seq<string>, name: string): (r: Option<nat>)
    ensures r.Some? ==> r.value < |names| && names[r.value] == name
    ensures r.Some? ==> forall j :: 0 <= j < r.value ==> names[j] != name
    ensures r.None? <==> name !in names
  {
    if names == [] then None
    else if names[0] == name then Some(0)
    else match FirstNamed(names[1..], name)
      case None => None
      case Some(i) => Some(i + 1)
  }

  /** The unit a lookup settles on (its position in the table), or why its
      creation failed, with the table afterwards. */
  datatype Obtained = Obtained(result: Outcome<nat>, names: seq<string>)

  /** `filter(name=name).first()`, else `create(name=name, display_order=0)`;
      `refuse` gives the exception a create raises, if any. */
  function ObtainIn(names: seq<string>, name: string, refuse: string -> Option<string>): (r: Obtained)
    ensures name in names ==> r.names == names && r.result == Got(FirstNamed(names, name).value)
    ensures r.names == names || (name !in names && r.names == names + [name])
    ensures r.result.Got? ==> r.result.value < |r.names| && r.names[r.result.value] == name
    ensures r.result.Failed? ==> r.names == names && name !in names
  {
    match FirstNamed(names, name)
    case Some(i) => Obtained(Got(i), names)
    case None =>
      match refuse(name)
      case None => Obtained(Got(|names|), names + [name])
      case Some(e) => Obtained(Failed(e), names)
  }

  /** No two units share a name. */
  predicate Distinct(names: seq<string>)
  {
    forall i, j :: 0 <= i < j < |names| ==> names[i] != names[j]
  }

  /** A lookup never creates a second unit with a name already present, so a
      table of distinct names stays distinct. */
  lemma ObtainKeepsDistinct(names: seq<string>, name: string, refuse: string -> Option<string>)
    ensures Distinct(names) ==> Distinct(ObtainIn(names, name, refuse).names)
  {
  }

  /** Looking the same name up again finds the unit the first lookup settled
      on and changes nothing. */
  lemma ObtainIdempotent(names: seq<string>, name: string, refuse: string -> Option<string>,
                         refuse2: string -> Option<string>)
    requires ObtainIn(names, name, refuse).result.Got?
    ensures var r := ObtainIn(names, name, refuse);
      ObtainIn(r.names, name, refuse2) == r
  {
    var r := ObtainIn(names, name, refuse);
    if name !in names {
      var i := FirstNamed(r.names, name);
      assert r.names[|names|] == name;
      assert i.Some? && i.value <= |names|;
      assert i.value == |names|;
    }
  }

  /** The business-unit table. */
  class UnitTable {
    var names: seq<string>
    const refuse: string -> Option<string>

    constructor (names: seq<string>, refuse: string -> Option<string>)
      ensures this.names == names && this.refuse == refuse
    {
      this.names := names;
      this.refuse := refuse;
    }

    /** Find the first unit with this name, or create one. */
    method Obtain(name: string) returns (r: Outcome<nat>)
      modifies this
      ensures Obtained(r, names) == ObtainIn(old(names), name, refuse)
    {
      match FirstNamed(names, name) {
        case Some(i) =>
          r := Got(i);
        case None =>
          var e := refuse(name);
          if e.None? {
            r := Got(|names|);
            names := names + [name];
          } else {
            r := Failed(e.value);
          }
      }
    }
  }

  // ---------------------------------------------------------------------
  // Columns

  /** The fields written for one `WHDataRow`; the businesses are unit positions. */
  datatype Entry = Entry(wh: string, empNo: string, fullName: string, business: nat, business2: Option<nat>)

  datatype Cols = Cols(wh: Option<nat>, empNo: Option<nat>, fullName: Option<nat>,
                       business: Option<nat>, business2: Option<nat>)

  /** The header names tried for each column, in order. */
  datatype Names = Names(wh: seq<string>, empNo: seq<string>, fullName: seq<string>,
                         business: seq<string>, business2: seq<string>)

  /** The candidates the importer passes to `_find_column` ("Busines" first). */
  const Aliases: Names := Names(
    ["WH", "wh"],
    ["Emp No", "Emp No.", "EmpNo", "emp_no"],
    ["Full Name", "FullName", "full_name"],
    ["Busines", "Business", "business"],
    ["Business 2", "Business2", "business_2"])

  function Locate(headers: seq<string>, names: Names): Cols
  {
    Cols(FindExact(headers, names.wh),
         FindExact(headers, names.empNo),
         FindExact(headers, names.fullName),
         FindExact(headers, names.business),
         FindExact(headers, names.business2))
  }

  const NoWh := "Column 'WH' not found in sheet part_2."
  const NoEmpNo := "Column 'Emp No' not found in sheet part_2."
  const NoFullName := "Column 'Full Name' not found in sheet part_2."
  const NoBusiness := "Column 'Busines' or 'Business' not found in sheet part_2."
  const BusinessRequired := "Business is required."

  /** One error per missing required column, in the order they are checked;
      Business 2 is optional. */
  function MissingColumns(cols: Cols): (errs: seq<Problem>)
    ensures errs == [] <==> cols.wh.Some? && cols.empNo.Some? && cols.fullName.Some? && cols.business.Some?
    ensures |errs| == (if cols.wh.None? then 1 else 0) + (if cols.empNo.None? then 1 else 0)
                      + (if cols.fullName.None? then 1 else 0) + (if cols.business.None? then 1 else 0)
    ensures forall k :: 0 <= k < |errs| ==> errs[k].Missing?
  {
    (if cols.wh.None? then [Missing(NoWh)] else [])
    + (if cols.empNo.None? then [Missing(NoEmpNo)] else [])
    + (if cols.fullName.None? then [Missing(NoFullName)] else [])
    + (if cols.business.None? then [Missing(NoBusiness)] else [])
  }

  // ---------------------------------------------------------------------
  // The row loop

  /** The loop's state: the row bookkeeping and the unit table. */
  datatype State = State(t: Tally<Entry>, units: seq<string>)

  /** A row's cleaned cells; an absent column reads as empty. */
  datatype Values = Values(wh: string, empNo: string, fullName: string, business: string, business2: string)

  function ValuesOf(cols: Cols, row: Row): (v: Values)
    ensures v.wh == Field(row, cols.wh) && v.empNo == Field(row, cols.empNo)
    ensures v.fullName == Field(row, cols.fullName) && v.business == Field(row, cols.business)
    ensures v.business2 == Field(row, cols.business2)
  {
    Values(Field(row, cols.wh), Field(row, cols.empNo), Field(row, cols.fullName),
           Field(row, cols.business), Field(row, cols.business2))
  }

  /** Whether a row has a WH, an Emp No or a Full Name. */
  predicate HasKey(v: Values)
  {
    v.wh != [] || v.empNo != [] || v.fullName != []
  }

  datatype Obtained2 = Obtained2(result: Outcome<Option<nat>>, names: seq<string>)

  /** The optional second business: none for an empty name. */
  function ObtainOptional(names: seq<string>, name: string, refuse: string -> Option<string>): (r: Obtained2)
    ensures name == [] ==> r == Obtained2(Got(None), names)
    ensures name != [] ==> r.names == ObtainIn(names, name, refuse).names
    ensures name != [] && name in names ==> r == Obtained2(Got(Some(FirstNamed(names, name).value)), names)
    ensures r.result.Got? && r.result.value.Some? ==>
      r.result.value.value < |r.names| && r.names[r.result.value.value] == name
  {
    if name == [] then Obtained2(Got(None), names)
    else
      var o := ObtainIn(names, name, refuse);
      match o.result
      case Got(i) => Obtained2(Got(Some(i)), o.names)
      case Failed(e) => Obtained2(Failed(e), o.names)
  }

  /** The row's record once its first business is unit `b` and the table is
      `units`: the second business, then the create with the next order. */
  function Finish(t: Tally<Entry>, units: seq<string>, v: Values, b: nat, pos: nat,
                  unitRefuse: string -> Option<string>, refuse: Stored<Entry> -> Option<string>): State
  {
    var o2 := ObtainOptional(units, v.business2, unitRefuse);
    match o2.result
    case Failed(e) => State(t.(errors := t.errors + [RowFailed(pos + 2, e)]), o2.names)
    case Got(b2) =>
      var rec := Stored(t.last + 1, Entry(OrDash(v.wh), OrDash(v.empNo), OrDash(v.fullName), b, b2));
      match refuse(rec)
      case None => State(Tally(t.added + [rec], t.created + 1, t.errors, t.last + 1), o2.names)
      case Some(e) => State(Tally(t.added, t.created, t.errors + [RowFailed(pos + 2, e)], t.last + 1), o2.names)
  }

  /** A kept row: the business check, the first business, then `Finish`. */
  function Place(s: State, v: Values, pos: nat, unitRefuse: string -> Option<string>,
                 refuse: Stored<Entry> -> Option<string>): State
  {
    if v.business == [] then State(s.t.(errors := s.t.errors + [RowFailed(pos + 2, BusinessRequired)]), s.units)
    else
      var o1 := ObtainIn(s.units, v.business, unitRefuse);
      match o1.result
      case Failed(e) => State(s.t.(errors := s.t.errors + [RowFailed(pos + 2, e)]), o1.names)
      case Got(b) => Finish(s.t, o1.names, v, b, pos, unitRefuse, refuse)
  }

  /** One pass of the loop over the row at position `pos`: blank rows and rows
      without WH, Emp No and Full Name are passed over silently. */
  function WhStep(s: State, row: Row, pos: nat, cols: Cols, unitRefuse: string -> Option<string>,
                  refuse: Stored<Entry> -> Option<string>): State
  {
    if AllMissing(row) || !HasKey(ValuesOf(cols, row)) then s
    else Place(s, ValuesOf(cols, row), pos, unitRefuse, refuse)
  }

  /** The loop over all rows, from state `s0`. */
  function WhRun(rows: seq<Row>, cols: Cols, unitRefuse: string -> Option<string>,
                 refuse: Stored<Entry> -> Option<string>, s0: State): State
    decreases |rows|
  {
    if rows == [] then s0
    else WhStep(WhRun(rows[..|rows| - 1], cols, unitRefuse, refuse, s0), rows[|rows| - 1], |rows| - 1,
                cols, unitRefuse, refuse)
  }

  /** A created row names real units and has a non-empty WH, Emp No and Full
      Name ("—" standing for an empty one). */
  predicate Refers(e: Entry, units: seq<string>)
  {
    && e.wh != [] && e.empNo != [] && e.fullName != []
    && e.business < |units| && units[e.business] != []
    && (e.business2.Some? ==> e.business2.value < |units| && units[e.business2.value] != [])
  }

  /** Every created row refers to the unit table as it stands. */
  predicate Consistent(s: State)
  {
    forall k :: 0 <= k < |s.t.added| ==> Refers(s.t.added[k].fields, s.units)
  }

  /** The bookkeeping a pass keeps. */
  predicate Kept(s0: State, s: State, lo: nat)
  {
    && s.t.created == |s.t.added| && Ordered(s.t.added, lo, s.t.last) && lo <= s.t.last
    && s0.t.added <= s.t.added && s0.t.errors <= s.t.errors && s0.units <= s.units
    && (Distinct(s0.units) ==> Distinct(s.units))
    && Consistent(s)
  }

  /** A created row refers to units that a longer table still holds. */
  lemma ConsistentGrows(t: Tally<Entry>, units: seq<string>, more: seq<string>)
    requires Consistent(State(t, units)) && units <= more
    ensures Consistent(State(t, more))
  {
    forall k | 0 <= k < |t.added|
      ensures Refers(t.added[k].fields, more)
    {
      assert Refers(t.added[k].fields, units);
    }
  }

  /** What finishing a row keeps. */
  lemma FinishKeeps(t: Tally<Entry>, units: seq<string>, v: Values, b: nat, pos: nat,
                    unitRefuse: string -> Option<string>, refuse: Stored<Entry> -> Option<string>, lo: nat)
    requires t.created == |t.added| && Ordered(t.added, lo, t.last) && lo <= t.last
    requires Consistent(State(t, units))
    requires b < |units| && units[b] == v.business != []
    ensures Kept(State(t, units), Finish(t, units, v, b, pos, unitRefuse, refuse), lo)
  {
    var n := Finish(t, units, v, b, pos, unitRefuse, refuse);
    var o2 := ObtainOptional(units, v.business2, unitRefuse);
    if v.business2 != [] {
      ObtainKeepsDistinct(units, v.business2, unitRefuse);
    }
    ConsistentGrows(t, units, o2.names);
    if |n.t.added| > |t.added| {
      StepKeepsOrder(t.added, n.t.added[|t.added|], lo, t.last);
    }
  }

  /** What one pass keeps: rows and errors are only appended, the counter only
      grows and numbers each created row, units are only added and stay
      distinct, and created rows refer to the units. */
  lemma PlaceKeeps(s: State, v: Values, pos: nat, unitRefuse: string -> Option<string>,
                   refuse: Stored<Entry> -> Option<string>, lo: nat)
    requires s.t.created == |s.t.added| && Ordered(s.t.added, lo, s.t.last) && lo <= s.t.last
    requires Consistent(s)
    ensures Kept(s, Place(s, v, pos, unitRefuse, refuse), lo)
  {
    if v.business != [] {
      var o1 := ObtainIn(s.units, v.business, unitRefuse);
      ObtainKeepsDistinct(s.units, v.business, unitRefuse);
      ConsistentGrows(s.t, s.units, o1.names);
      if o1.result.Got? {
        FinishKeeps(s.t, o1.names, v, o1.result.value, pos, unitRefuse, refuse, lo);
      }
    }
  }

  /** The loop's bookkeeping over all rows. */
  lemma {:induction false} WhRunKeeps(rows: seq<Row>, cols: Cols, unitRefuse: string -> Option<string>,
                                      refuse: Stored<Entry> -> Option<string>, s0: State, lo: nat)
    requires s0.t.created == |s0.t.added| && Ordered(s0.t.added, lo, s0.t.last) && lo <= s0.t.last
    requires Consistent(s0)
    ensures Kept(s0, WhRun(rows, cols, unitRefuse, refuse, s0), lo)
    decreases |rows|
  {
    if rows != [] {
      var front := rows[..|rows| - 1];
      WhRunKeeps(front, cols, unitRefuse, refuse, s0, lo);
      var s := WhRun(front, cols, unitRefuse, refuse, s0);
      var row := rows[|rows| - 1];
      if !AllMissing(row) && HasKey(ValuesOf(cols, row)) {
        PlaceKeeps(s, ValuesOf(cols, row), |rows| - 1, unitRefuse, refuse, lo);
      }
    }
  }

  /** Writes one kept row: the business units, then the `WHDataRow`. */
  method PlaceRow(store: Store<Entry>, units: UnitTable, t: Tally<Entry>, v: Values, pos: nat)
    returns (n: Tally<Entry>)
    modifies store, units
    ensures State(n, units.names) == Place(State(t, old(units.names)), v, pos, units.refuse, store.refuse)
    ensures t.added <= n.added
    ensures store.records == old(store.records) + n.added[|t.added|..]
  {
    n := t;
    if v.business == [] {
      n := t.(errors := t.errors + [RowFailed(pos + 2, BusinessRequired)]);
      return;
    }
    var b := units.Obtain(v.business);
    if b.Failed? {
      n := t.(errors := t.errors + [RowFailed(pos + 2, b.reason)]);
      return;
    }
    var b2: Outcome<Option<nat>> := Got(None);
    if v.business2 != [] {
      var u := units.Obtain(v.business2);
      b2 := if u.Got? then Got(Some(u.value)) else Failed(u.reason);
    }
    if b2.Failed? {
      n := t.(errors := t.errors + [RowFailed(pos + 2, b2.reason)]);
      return;
    }
    var rec := Stored(t.last + 1, Entry(OrDash(v.wh), OrDash(v.empNo), OrDash(v.fullName), b.value, b2.value));
    var err := store.Create(rec);
    if err.None? {
      n := Tally(t.added + [rec], t.created + 1, t.errors, t.last + 1);
      assert n.added[|t.added|..] == [rec];
    } else {
      n := Tally(t.added, t.created, t.errors + [RowFailed(pos + 2, err.value)], t.last + 1);
    }
  }

  /** The run over one more row is one more step. */
  lemma WhRunSnoc(rows: seq<Row>, i: nat, cols: Cols, unitRefuse: string -> Option<string>,
                  refuse: Stored<Entry> -> Option<string>, s0: State)
    requires i < |rows|
    ensures WhRun(rows[..i + 1], cols, unitRefuse, refuse, s0)
         == WhStep(WhRun(rows[..i], cols, unitRefuse, refuse, s0), rows[i], i, cols, unitRefuse, refuse)
  {
    assert rows[..i + 1][..i] == rows[..i];
  }

  /** The unread part of a longer sequence splits at an intermediate length. */
  lemma SuffixSplit<T>(a: seq<T>, b: seq<T>, c: seq<T>)
    requires a <= b <= c
    ensures c[|a|..] == b[|a|..] + c[|b|..]
  {
  }

  /** One pass of the loop over the row at position `pos`. */
  method StepRow(store: Store<Entry>, units: UnitTable, t: Tally<Entry>, row: Row, pos: nat, cols: Cols)
    returns (n: Tally<Entry>)
    modifies store, units
    ensures State(n, units.names) == WhStep(State(t, old(units.names)), row, pos, cols, units.refuse, store.refuse)
    ensures t.added <= n.added
    ensures store.records == old(store.records) + n.added[|t.added|..]
  {
    var v := ValuesOf(cols, row);
    if AllMissing(row) || !HasKey(v) {
      n := t;
    } else {
      n := PlaceRow(store, units, t, v, pos);
    }
  }

  /** The row loop, writing to the row table and the unit table. */
  method ImportRows(store: Store<Entry>, units: UnitTable, rows: seq<Row>, cols: Cols, t0: Tally<Entry>)
    returns (t: Tally<Entry>)
    modifies store, units
    ensures State(t, units.names) == WhRun(rows, cols, units.refuse, store.refuse, State(t0, old(units.names)))
    ensures t0.added <= t.added
    ensures store.records == old(store.records) + t.added[|t0.added|..]
  {
    var s0 := State(t0, units.names);
    ghost var base := store.records;
    t := t0;
    var i := 0;
    while i < |rows|
      invariant 0 <= i <= |rows|
      invariant State(t, units.names) == WhRun(rows[..i], cols, units.refuse, store.refuse, s0)
      invariant t0.added <= t.added
      invariant store.records == base + t.added[|t0.added|..]
    {
      WhRunSnoc(rows, i, cols, units.refuse, store.refuse, s0);
      ghost var before := t;
      t := StepRow(store, units, t, rows[i], i, cols);
      SuffixSplit(t0.added, before.added, t.added);
      assert store.records == base + (before.added[|t0.added|..] + t.added[|before.added|..]);
      i := i + 1;
    }
    assert rows[..i] == rows;
  }

  // ---------------------------------------------------------------------
  // The import

  /** The outcome of an import with the candidates `names`: the row
      bookkeeping and the unit table afterwards. */
  function Imported(names: Names, read: Outcome<Sheet>, units: seq<string>, top: nat,
                    unitRefuse: string -> Option<string>, refuse: Stored<Entry> -> Option<string>): State
  {
    match read
    case Failed(e) => State(Start([Unreadable(e)], top), units)
    case Got(sheet) =>
      if IsEmpty(sheet) then State(Start([EmptySheet], top), units)
      else Loaded(sheet, Locate(sheet.headers, names), units, top, unitRefuse, refuse)
  }

  /** The import of a sheet that was read and is not empty, once its columns
      are located. */
  function Loaded(sheet: Sheet, cols: Cols, units: seq<string>, top: nat,
                  unitRefuse: string -> Option<string>, refuse: Stored<Entry> -> Option<string>): State
  {
    var missing := MissingColumns(cols);
    if missing != [] then State(Start(missing, top), units)
    else WhRun(sheet.rows, cols, unitRefuse, refuse, State(Start([], top), units))
  }

  /** The importer. */
  method Import(store: Store<Entry>, units: UnitTable, read: Outcome<Sheet>)
    returns (created: nat, errors: seq<Problem>)
    modifies store, units
    ensures var s := Imported(Aliases, read, old(units.names), old(store.Top()), units.refuse, store.refuse);
      && created == s.t.created && errors == s.t.errors && units.names == s.units
      && store.records == old(store.records) + s.t.added
  {
    match read
    case Failed(e) =>
      return 0, [Unreadable(e)];
    case Got(sheet) =>
      if IsEmpty(sheet) {
        return 0, [EmptySheet];
      }
      var cols := Locate(sheet.headers, Aliases);
      var missing := MissingColumns(cols);
      if missing != [] {
        return 0, missing;
      }
      var t := ImportRows(store, units, sheet.rows, cols, Start([], store.Top()));
      return t.created, t.errors;
  }

  /** A missing required column stops the import before any row: nothing is
      created, no unit is added, and there is one message per missing column. */
  lemma MissingColumnStopsImport(sheet: Sheet, cols: Cols, units: seq<string>, top: nat,
                                 unitRefuse: string -> Option<string>, refuse: Stored<Entry> -> Option<string>)
    requires cols.wh.None? || cols.empNo.None? || cols.fullName.None? || cols.business.None?
    ensures var s := Loaded(sheet, cols, units, top, unitRefuse, refuse);
      && s.t.created == 0 && s.t.added == [] && s.units == units
      && 1 <= |s.t.errors| <= 4 && s.t.errors == MissingColumns(cols)
  {
  }

  /** The import's bookkeeping: the count is the number of rows created;
      created rows are numbered above the previous maximum, strictly
      increasing; units are only added, never duplicated by name, and every
      created row refers to existing units by non-empty names. */
  lemma ImportBookkeeping(sheet: Sheet, cols: Cols, units: seq<string>, top: nat,
                          unitRefuse: string -> Option<string>, refuse: Stored<Entry> -> Option<string>)
    ensures var s := Loaded(sheet, cols, units, top, unitRefuse, refuse);
      && s.t.created == |s.t.added| && Ordered(s.t.added, top, s.t.last)
      && units <= s.units && (Distinct(units) ==> Distinct(s.units))
      && Consistent(s)
  {
    if MissingColumns(cols) == [] {
      WhRunKeeps(sheet.rows, cols, unitRefuse, refuse, State(Start([], top), units), top);
    }
  }

  /** Whatever the sheet, an import leaves the unit names distinct if they
      were, keeps the units already there, and every created row refers to
      units by non-empty names. */
  lemma ImportKeepsUnitsConsistent(names: Names, read: Outcome<Sheet>, units: seq<string>, top: nat,
                                   unitRefuse: string -> Option<string>, refuse: Stored<Entry> -> Option<string>)
    ensures var s := Imported(names, read, units, top, unitRefuse, refuse);
      && units <= s.units && (Distinct(units) ==> Distinct(s.units)) && Consistent(s)
      && s.t.created == |s.t.added|
  {
    if read.Got? && !IsEmpty(read.value) {
      ImportBookkeeping(read.value, Locate(read.value.headers, names), units, top, unitRefuse, refuse);
    }
  }

  /** A kept row without a business is reported, creates nothing, adds no
      unit and uses no order number. */
  lemma BusinessRequiredRow(s: State, v: Values, pos: nat, unitRefuse: string -> Option<string>,
                            refuse: Stored<Entry> -> Option<string>)
    requires v.business == []
    ensures Place(s, v, pos, unitRefuse, refuse)
         == State(s.t.(errors := s.t.errors + [RowFailed(pos + 2, BusinessRequired)]), s.units)
  {
  }

  /** A row whose businesses are already units adds no unit, and the row it
      creates (if the table accepts it) points at the first unit of each name;
      an empty Business 2 gives none. */
  lemma KnownBusinessesReused(s: State, v: Values, pos: nat, unitRefuse: string -> Option<string>,
                              refuse: Stored<Entry> -> Option<string>)
    requires v.business in s.units
    requires v.business2 == [] || v.business2 in s.units
    ensures var n := Place(s, v, pos, unitRefuse, refuse);
      && n.units == s.units
      && (|n.t.added| > |s.t.added| ==>
            && n.t.added[|s.t.added|].fields.business == FirstNamed(s.units, v.business).value
            && (v.business2 == [] <==> n.t.added[|s.t.added|].fields.business2.None?))
  {
  }

  /** The row a kept line creates: it has a Business, takes the next order
      number, stores "—" for an empty WH, Emp No or Full Name, and points at
      units bearing its business names; Business 2 is absent exactly when
      its cell is empty. */
  lemma PlacedRecord(s: State, v: Values, pos: nat, unitRefuse: string -> Option<string>,
                     refuse: Stored<Entry> -> Option<string>)
    ensures var n := Place(s, v, pos, unitRefuse, refuse);
      |n.t.added| > |s.t.added| ==>
        && v.business != []
        && n.t.added[|s.t.added|].order == s.t.last + 1
        && n.t.added[|s.t.added|].fields.wh == OrDash(v.wh)
        && n.t.added[|s.t.added|].fields.empNo == OrDash(v.empNo)
        && n.t.added[|s.t.added|].fields.fullName == OrDash(v.fullName)
        && n.t.added[|s.t.added|].fields.business < |n.units|
        && n.units[n.t.added[|s.t.added|].fields.business] == v.business
        && (v.business2 == [] <==> n.t.added[|s.t.added|].fields.business2.None?)
        && (n.t.added[|s.t.added|].fields.business2.Some? ==>
              n.t.added[|s.t.added|].fields.business2.value < |n.units|
              && n.units[n.t.added[|s.t.added|].fields.business2.value] == v.business2)
  {
  }

  /** Rows that are blank or have no WH, Emp No and Full Name leave the state
      as it was: no message, no unit, no order number. */
  lemma KeylessRowIgnored(s: State, row: Row, pos: nat, cols: Cols, unitRefuse: string -> Option<string>,
                          refuse: Stored<Entry> -> Option<string>)
    requires Field(row, cols.wh) == [] && Field(row, cols.empNo) == [] && Field(row, cols.fullName) == []
    ensures WhStep(s, row, pos, cols, unitRefuse, refuse) == s
  {
  }
}
