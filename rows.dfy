/**
 * What the six importers share: reading a sheet, the `(created_count, errors)`
 * pair they return, the store their rows are written to, and the row loop
 * (skip the row, or bump `max_order` and try to create it, counting a success
 * or recording "Row {idx + 2}: {e}").
 */
module Rows {
  import opened Text
  import opened Cells

  /** A sheet as pandas reads it with `header=0`: the header row, then the data
      rows in sheet order (row `k` is spreadsheet line `k + 2`). */
  datatype Sheet = Sheet(headers: seq<string>, rows: seq<Row>)

  /** `df.empty`: no columns or no rows. */
  predicate IsEmpty(s: Sheet)
  {
    s.headers == [] || s.rows == []
  }

  /** An operation outside the model (reading a file, listing its sheets) that
      either gives a value or raises with a message. */
  datatype Outcome<T> = Got(value: T) | Failed(reason: string)

  /** One entry of the `errors` list an importer returns. */
  datatype Problem =
    | Unreadable(reason: string)
    | EmptySheet
    | Missing(text: string)
    | RowFailed(line: nat, reason: string)
  {
    /** The message as the importer words it. */
    function Message(): string
    {
      match this
      case Unreadable(r) => "Could not read file: " + r
      case EmptySheet => "File or sheet is empty."
      case Missing(t) => t
      case RowFailed(line, r) => "Row " + Decimal(line) + ": " + r
    }
  }

  /** A stored row: its `display_order` and the fields the importer wrote. */
  datatype Stored<R> = Stored(order: nat, fields: R)

  /** `aggregate(m=Max("display_order"))["m"] or 0`. */
  function MaxOrder<R>(records: seq<Stored<R>>): (m: nat)
    ensures forall k :: 0 <= k < |records| ==> records[k].order <= m
    ensures m == 0 || exists k :: 0 <= k < |records| && records[k].order == m
    decreases |records|
  {
    if records == [] then 0
    else
      var rest := MaxOrder(records[..|records| - 1]);
      var o := records[|records| - 1].order;
      if o > rest then o else rest
  }

  /** A table of the database. `refuse` stands for everything that can make
      `objects.create` raise (a constraint, a field the table no longer has,
      a table that does not exist): it gives the exception's text, or `None`
      when the row is accepted. */
  class Store<R> {
    var records: seq<Stored<R>>
    const refuse: Stored<R> -> Option<string>

    constructor (records: seq<Stored<R>>, refuse: Stored<R> -> Option<string>)
      ensures this.records == records && this.refuse == refuse
    {
      this.records := records;
      this.refuse := refuse;
    }

    /** The highest `display_order` stored, or 0. */
    function Top(): nat
      reads this
    {
      MaxOrder(records)
    }

    /** `objects.create(...)`: appends the row, or raises and leaves the table as it was. */
    method Create(rec: Stored<R>) returns (err: Option<string>)
      modifies this
      ensures err == refuse(rec)
      ensures err.None? ==> records == old(records) + [rec]
      ensures err.Some? ==> records == old(records)
    {
      err := refuse(rec);
      if err.None? {
        records := records + [rec];
      }
    }
  }

  /** The state of a row loop: the rows it has created, `created_count`,
      `errors` and `max_order`. */
  datatype Tally<R> = Tally(added: seq<Stored<R>>, created: nat, errors: seq<Problem>, last: nat)

  /** The state before the first row: nothing created, the errors recorded so
      far, and the counter at the table's current maximum. */
  function Start<R>(errors: seq<Problem>, top: nat): Tally<R>
  {
    Tally([], 0, errors, top)
  }

  /** One pass of the loop over the row at position `pos`. A row `dropna`
      removed, or one `plan` skips, changes nothing. Otherwise the counter is
      bumped first and the row is offered to the store with it. */
  function Step<R>(t: Tally<R>, row: Row, pos: nat, plan: Row -> Option<R>,
                   refuse: Stored<R> -> Option<string>): Tally<R>
  {
    if AllMissing(row) then t
    else match plan(row)
      case None => t
      case Some(fields) =>
        var rec := Stored(t.last + 1, fields);
        match refuse(rec)
        case None => Tally(t.added + [rec], t.created + 1, t.errors, t.last + 1)
        case Some(e) => Tally(t.added, t.created, t.errors + [RowFailed(pos + 2, e)], t.last + 1)
  }

  /** The loop over all rows, from state `t0`. */
  function Run<R>(rows: seq<Row>, plan: Row -> Option<R>, refuse: Stored<R> -> Option<string>,
                  t0: Tally<R>): Tally<R>
    decreases |rows|
  {
    if rows == [] then t0
    else Step(Run(rows[..|rows| - 1], plan, refuse, t0), rows[|rows| - 1], |rows| - 1, plan, refuse)
  }

  /** Whether the loop tries to create a row for `row`. */
  predicate Attempted<R>(row: Row, plan: Row -> Option<R>)
  {
    !AllMissing(row) && plan(row).Some?
  }

  /** How many rows the loop tries to create. */
  function Attempts<R>(rows: seq<Row>, plan: Row -> Option<R>): nat
    decreases |rows|
  {
    if rows == [] then 0
    else Attempts(rows[..|rows| - 1], plan) + (if Attempted(rows[|rows| - 1], plan) then 1 else 0)
  }

  /** The field values of the rows the loop tries to create, in sheet order. */
  function Planned<R>(rows: seq<Row>, plan: Row -> Option<R>): (fs: seq<R>)
    ensures |fs| == Attempts(rows, plan)
    decreases |rows|
  {
    if rows == [] then []
    else
      var row := rows[|rows| - 1];
      Planned(rows[..|rows| - 1], plan) + (if Attempted(row, plan) then [plan(row).value] else [])
  }

  /** `fs` stored with the orders `base + 1`, `base + 2`, ... */
  function Numbered<R>(fs: seq<R>, base: nat): (rs: seq<Stored<R>>)
    ensures |rs| == |fs|
    ensures forall k :: 0 <= k < |rs| ==> rs[k] == Stored(base + 1 + k, fs[k])
    decreases |fs|
  {
    if fs == [] then [] else Numbered(fs[..|fs| - 1], base) + [Stored(base + |fs|, fs[|fs| - 1])]
  }

  /** Orders strictly above `lo`, at most `hi`, strictly increasing. */
  predicate Ordered<R>(added: seq<Stored<R>>, lo: nat, hi: nat)
  {
    && (forall k :: 0 <= k < |added| ==> lo < added[k].order <= hi)
    && (forall i, j :: 0 <= i < j < |added| ==> added[i].order < added[j].order)
  }

  /** The loop's bookkeeping: `created_count` is the number of rows created;
      the counter advances once per attempt, failed or not; every attempt ends
      as a created row or an error; created rows get strictly increasing orders
      above the starting maximum; nothing recorded before is lost. */
  lemma {:induction false} RunBookkeeping<R>(rows: seq<Row>, plan: Row -> Option<R>,
                                             refuse: Stored<R> -> Option<string>, t0: Tally<R>, lo: nat)
    requires t0.created == |t0.added| && Ordered(t0.added, lo, t0.last) && lo <= t0.last
    ensures var t := Run(rows, plan, refuse, t0);
      && t.created == |t.added|
      && lo <= t.last
      && t.last == t0.last + Attempts(rows, plan)
      && |t.added| + |t.errors| == |t0.added| + |t0.errors| + Attempts(rows, plan)
      && Ordered(t.added, lo, t.last)
      && t0.added <= t.added && t0.errors <= t.errors
    decreases |rows|
  {
    if rows != [] {
      var front := rows[..|rows| - 1];
      RunBookkeeping(front, plan, refuse, t0, lo);
      var u := Run(front, plan, refuse, t0);
      var row := rows[|rows| - 1];
      if Attempted(row, plan) {
        var rec := Stored(u.last + 1, plan(row).value);
        if refuse(rec).None? {
          StepKeepsOrder(u.added, rec, lo, u.last);
        }
      }
    }
  }

  /** Appending a row numbered above every stored order keeps them ordered. */
  lemma StepKeepsOrder<R>(added: seq<Stored<R>>, rec: Stored<R>, lo: nat, hi: nat)
    requires Ordered(added, lo, hi) && lo <= hi && rec.order == hi + 1
    ensures Ordered(added + [rec], lo, hi + 1)
  {
    var a := added + [rec];
    assert forall k :: 0 <= k < |added| ==> a[k] == added[k];
  }

  /** Every error the loop records is "Row n: ..." for a spreadsheet line n of
      the sheet, and the lines increase. */
  lemma {:induction false} RunErrorLines<R>(rows: seq<Row>, plan: Row -> Option<R>,
                                            refuse: Stored<R> -> Option<string>, t0: Tally<R>)
    ensures var t := Run(rows, plan, refuse, t0);
      && t0.errors <= t.errors
      && (forall k :: |t0.errors| <= k < |t.errors| ==>
            t.errors[k].RowFailed? && 2 <= t.errors[k].line <= |rows| + 1)
      && (forall i, j :: |t0.errors| <= i < j < |t.errors| ==> t.errors[i].line < t.errors[j].line)
    decreases |rows|
  {
    if rows != [] {
      RunErrorLines(rows[..|rows| - 1], plan, refuse, t0);
    }
  }

  /** When the table accepts every row, the loop stores exactly the planned
      rows, in sheet order, numbered from the starting counter, and records no
      error. */
  lemma {:induction false} RunAcceptAll<R>(rows: seq<Row>, plan: Row -> Option<R>,
                                           refuse: Stored<R> -> Option<string>, t0: Tally<R>)
    requires forall r: Stored<R> :: refuse(r).None?
    ensures var t := Run(rows, plan, refuse, t0);
      t.added == t0.added + Numbered(Planned(rows, plan), t0.last) && t.errors == t0.errors
    decreases |rows|
  {
    if rows != [] {
      var front := rows[..|rows| - 1];
      var row := rows[|rows| - 1];
      RunAcceptAll(front, plan, refuse, t0);
      RunLast(front, plan, refuse, t0);
      var u := Run(front, plan, refuse, t0);
      assert Run(rows, plan, refuse, t0) == Step(u, row, |rows| - 1, plan, refuse);
      var fs := Planned(rows, plan);
      var p := plan(row);
      if AllMissing(row) || p.None? {
        assert fs == Planned(front, plan);
      } else {
        match p {
          case Some(f) =>
            var rec := Stored(u.last + 1, f);
            assert refuse(rec).None?;
            assert fs == Planned(front, plan) + [f];
            assert u.last == t0.last + |Planned(front, plan)|;
            NumberedSnoc(t0.added, Planned(front, plan), f, t0.last);
        }
      }
    }
  }

  lemma NumberedSnoc<R>(before: seq<Stored<R>>, fs: seq<R>, f: R, base: nat)
    ensures before + Numbered(fs + [f], base) == before + Numbered(fs, base) + [Stored(base + |fs| + 1, f)]
  {
    assert (fs + [f])[..|fs|] == fs;
  }

  /** The counter advances once per attempt, from any state. */
  lemma {:induction false} RunLast<R>(rows: seq<Row>, plan: Row -> Option<R>,
                                      refuse: Stored<R> -> Option<string>, t0: Tally<R>)
    ensures Run(rows, plan, refuse, t0).last == t0.last + Attempts(rows, plan)
    decreases |rows|
  {
    if rows != [] {
      RunLast(rows[..|rows| - 1], plan, refuse, t0);
    }
  }

  /** When the table refuses every row, nothing is created, yet every attempt
      uses up an order number and records one error. */
  lemma {:induction false} RunRefuseAll<R>(rows: seq<Row>, plan: Row -> Option<R>,
                                           refuse: Stored<R> -> Option<string>, t0: Tally<R>)
    requires forall r: Stored<R> :: refuse(r).Some?
    ensures var t := Run(rows, plan, refuse, t0);
      && t.added == t0.added && t.created == t0.created
      && |t.errors| == |t0.errors| + Attempts(rows, plan)
      && t.last == t0.last + Attempts(rows, plan)
    decreases |rows|
  {
    if rows != [] {
      RunRefuseAll(rows[..|rows| - 1], plan, refuse, t0);
      var u := Run(rows[..|rows| - 1], plan, refuse, t0);
      var row := rows[|rows| - 1];
      if !AllMissing(row) {
        match plan(row) {
          case None =>
          case Some(f) => assert refuse(Stored(u.last + 1, f)).Some?;
        }
      }
    }
  }

  /** Rows the plan skips leave the state as it was. */
  lemma {:induction false} RunAllSkipped<R>(rows: seq<Row>, plan: Row -> Option<R>,
                                            refuse: Stored<R> -> Option<string>, t0: Tally<R>)
    requires forall k :: 0 <= k < |rows| ==> plan(rows[k]).None?
    ensures Run(rows, plan, refuse, t0) == t0
    ensures Attempts(rows, plan) == 0
    decreases |rows|
  {
    if rows != [] {
      var front := rows[..|rows| - 1];
      assert forall k :: 0 <= k < |front| ==> front[k] == rows[k];
      RunAllSkipped(front, plan, refuse, t0);
      assert plan(rows[|rows| - 1]).None?;
    }
  }

  /** The row loop: `for idx, row in df.iterrows()` over the rows `dropna`
      kept, bumping the counter before each create. */
  method AppendRows<R>(store: Store<R>, rows: seq<Row>, plan: Row -> Option<R>, t0: Tally<R>)
    returns (t: Tally<R>)
    modifies store
    ensures t == Run(rows, plan, store.refuse, t0)
    ensures t0.added <= t.added
    ensures store.records == old(store.records) + t.added[|t0.added|..]
  {
    RunBookkeepingPrefix(rows, plan, store.refuse, t0);
    t := t0;
    var i := 0;
    while i < |rows|
      invariant 0 <= i <= |rows|
      invariant t == Run(rows[..i], plan, store.refuse, t0)
      invariant t0.added <= t.added
      invariant store.records == old(store.records) + t.added[|t0.added|..]
    {
      var row := rows[i];
      RunBookkeepingPrefix(rows[..i + 1], plan, store.refuse, t0);
      assert rows[..i + 1][..i] == rows[..i];
      if !AllMissing(row) {
        var p := plan(row);
        if p.Some? {
          var order := t.last + 1;
          var err := store.Create(Stored(order, p.value));
          if err.None? {
            assert (t.added + [Stored(order, p.value)])[|t0.added|..] == t.added[|t0.added|..] + [Stored(order, p.value)];
            t := Tally(t.added + [Stored(order, p.value)], t.created + 1, t.errors, order);
          } else {
            t := Tally(t.added, t.created, t.errors + [RowFailed(i + 2, err.value)], order);
          }
        }
      }
      i := i + 1;
    }
    assert rows[..i] == rows;
  }

  /** Every row the loop creates carries fields the plan produced, so a
      property of every planned value holds of every created row. */
  lemma {:induction false} RunKeeps<R>(rows: seq<Row>, plan: Row -> Option<R>,
                                       refuse: Stored<R> -> Option<string>, t0: Tally<R>, ok: R -> bool)
    requires forall row :: plan(row).Some? ==> ok(plan(row).value)
    requires forall k :: 0 <= k < |t0.added| ==> ok(t0.added[k].fields)
    ensures forall k :: 0 <= k < |Run(rows, plan, refuse, t0).added| ==>
              ok(Run(rows, plan, refuse, t0).added[k].fields)
    decreases |rows|
  {
    if rows != [] {
      RunKeeps(rows[..|rows| - 1], plan, refuse, t0, ok);
    }
  }

  /** Created rows are only ever appended. */
  lemma {:induction false} RunBookkeepingPrefix<R>(rows: seq<Row>, plan: Row -> Option<R>,
                                                   refuse: Stored<R> -> Option<string>, t0: Tally<R>)
    ensures t0.added <= Run(rows, plan, refuse, t0).added
    decreases |rows|
  {
    if rows != [] {
      RunBookkeepingPrefix(rows[..|rows| - 1], plan, refuse, t0);
    }
  }

  // ---------------------------------------------------------------------
  // Reading the sheet

  /** The read error the challenges and progress-status importers answer by
      reading the workbook's first sheet instead. */
  predicate ShouldFallBack(reason: string)
  {
    var m := Lower(Strip(reason));
    Contains(m, "not found") || Contains(m, "worksheet") || Contains(m, "no sheet")
  }

  /** The read with a first-sheet fallback. `named` is the read of the requested
      sheet, `names` the listing of the workbook's sheets and `readSheet` the
      read of a sheet by name. */
  function LoadWithFallback(named: Outcome<Sheet>, names: Outcome<seq<string>>,
                            readSheet: string -> Outcome<Sheet>): (r: Outcome<Sheet>)
    ensures named.Got? ==> r == named
    ensures named.Failed? && !ShouldFallBack(named.reason) ==> r == named
    ensures r != named ==> named.Failed? && ShouldFallBack(named.reason)
    ensures r != named ==> (names.Failed? && r == Failed(names.reason)) ||
                           (names.Got? && names.value != [] && r == readSheet(names.value[0]))
    ensures named.Failed? && ShouldFallBack(named.reason) && names.Failed? ==> r == Failed(names.reason)
    ensures named.Failed? && ShouldFallBack(named.reason) && names.Got? && names.value != [] && names.value[0] != [] ==>
              r == readSheet(names.value[0])
    ensures named.Failed? && ShouldFallBack(named.reason) && names.Got? && (names.value == [] || names.value[0] == []) ==>
              r == named
  {
    match named
    case Got(_) => named
    case Failed(e) =>
      if !ShouldFallBack(e) then named
      else match names
        case Failed(e2) => Failed(e2)
        case Got(ns) => if ns == [] || ns[0] == [] then named else readSheet(ns[0])
  }

  /** Any other error is reported as it is. */
  lemma OtherErrorsReported(e: string, names: Outcome<seq<string>>, readSheet: string -> Outcome<Sheet>)
    requires !ShouldFallBack(e)
    ensures LoadWithFallback(Failed(e), names, readSheet) == Failed(e)
    ensures Unreadable(e).Message() == "Could not read file: " + e
  {
  }
}
