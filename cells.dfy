/**
 * Spreadsheet cells as the importers see them after pandas has read a sheet,
 * and the per-cell normalisers every importer repeats: `_normalize_col`, the
 * two `_normalize_status` classifiers, the progress-percentage rule and
 * `_parse_date`.
 */
module Cells {
  import opened Text

  datatype Option<T> = None | Some(value: T)

  /** A calendar day, or `NaTDay`: what pandas' `NaT.date()` gives back (NaT
      itself, which is not a day). */
  datatype Date = Date(year: int, month: int, day: int) | NaTDay

  /** One cell. `Blank` is a missing value (Python `None` or a float NaN);
      `NaT` is pandas' missing timestamp, which a blank cell of a date column
      becomes; `shown` is what Python's `str()` prints for a number or a
      timestamp. */
  datatype Cell =
    | Blank
    | NaT
    | Text(s: string)
    | Number(value: real, shown: string)
    | Stamp(day: Date, shown: string)

  /** One data row; cells line up with the sheet's headers. */
  type Row = seq<Cell>

  /** `row.get(col)`: a position past the end of the row reads as missing. */
  function Get(row: Row, i: nat): Cell
  {
    if i < |row| then row[i] else Blank
  }

  /** `_normalize_col`: `None` and NaN give "", anything else is
      `str(v).strip()`. NaT is neither, so it reads as the text "NaT". */
  function Clean(c: Cell): (r: string)
    ensures c.Blank? ==> r == []
    ensures c.NaT? ==> r == NaTText
    ensures r != [] ==> !IsSpace(r[0]) && !IsSpace(r[|r| - 1])
  {
    if c.Blank? then []
    else if c.NaT? then StripUnchanged(NaTText); NaTText
    else Strip(Shown(c))
  }

  /** `str(pd.NaT)`. */
  const NaTText: string := "NaT"

  /** Python's `str(v)` of a present cell. */
  function Shown(c: Cell): string
    requires !c.Blank?
  {
    match c
    case NaT => NaTText
    case Text(s) => s
    case Number(_, shown) => shown
    case Stamp(_, shown) => shown
  }

  /** `_normalize_col(row.get(col, "")) if col else ""`: an unresolved column reads as "". */
  function Field(row: Row, col: Option<nat>): (r: string)
    ensures col.None? ==> r == []
  {
    match col
    case None => []
    case Some(i) => Clean(Get(row, i))
  }

  /** The placeholder the importers store for an empty text field. */
  const Dash: string := "\U{2014}"

  /** Python's `s or "—"`: an empty value is stored as an em dash. */
  function OrDash(s: string): (r: string)
    ensures r != []
    ensures s != [] ==> r == s
    ensures s == [] ==> r == Dash
  {
    if s == [] then Dash else s
  }

  /** pandas' `isna`: `None`, NaN and NaT are missing. */
  predicate Missing(c: Cell)
  {
    c.Blank? || c.NaT?
  }

  /** `df.dropna(how="all")` drops a row whose every cell is missing. */
  predicate AllMissing(row: Row)
  {
    forall k :: 0 <= k < |row| ==> Missing(row[k])
  }

  /** Every cell of the row cleans to the empty string. */
  predicate AllEmpty(row: Row)
  {
    forall k :: 0 <= k < |row| ==> Clean(row[k]) == []
  }

  /** A row `dropna` keeps but `_normalize_col` reads as all-empty has no
      NaT in it: the importers' own all-empty test does not see NaT as empty. */
  lemma EmptyRowHasNoNaT(row: Row, k: nat)
    requires AllEmpty(row) && k < |row|
    ensures !row[k].NaT?
  {
  }

  /** The three canonical values of a status column. */
  datatype Status = Completed | InProgress | NotStarted
  {
    function Code(): string
    {
      match this
      case Completed => "completed"
      case InProgress => "in_progress"
      case NotStarted => "not_started"
    }
  }

  /** The weekly tracker's `_normalize_status`: "started" without "not" counts as in progress. */
  function WeeklyStatus(val: string): (r: Status)
  {
    var s := Lower(Strip(val));
    if Contains(s, "completed") || Contains(s, "done") then Completed
    else if Contains(s, "progress") || Contains(s, "in progress") then InProgress
    else if Contains(s, "not") && Contains(s, "started") then NotStarted
    else if Contains(s, "started") && !Contains(s, "not") then InProgress
    else NotStarted
  }

  /** The `_normalize_status` of the challenges and progress-status importers:
      there is no "started" rule. */
  function PlainStatus(val: string): (r: Status)
  {
    var s := Lower(Strip(val));
    if Contains(s, "completed") || Contains(s, "done") then Completed
    else if Contains(s, "progress") || Contains(s, "in progress") then InProgress
    else if Contains(s, "not") && Contains(s, "started") then NotStarted
    else NotStarted
  }

  /** Whatever contains "in progress" contains "progress". */
  lemma InProgressContainsProgress(s: string)
    requires Contains(s, "in progress")
    ensures Contains(s, "progress")
  {
    var i: nat :| i <= |s| && OccursAt(s, "in progress", i);
    assert s[i + 3..i + 11] == s[i..i + 11][3..11];
    assert OccursAt(s, "progress", i + 3);
  }

  /** A pattern holding a character absent from `s` does not occur in it. */
  lemma AbsentChar(s: string, pat: string, p: nat)
    requires p < |pat| && pat[p] !in s
    ensures !Contains(s, pat)
  {
    forall i: nat | i <= |s|
      ensures !OccursAt(s, pat, i)
    {
      if i + |pat| <= |s| {
        assert s[i..i + |pat|][p] == s[i + p];
      }
    }
  }

  /** The weekly classifier, stated as the conditions under which each value is chosen. */
  lemma WeeklyStatusCases(val: string)
    ensures var s := Lower(Strip(val));
      && (WeeklyStatus(val) == Completed <==> Contains(s, "completed") || Contains(s, "done"))
      && (WeeklyStatus(val) == InProgress <==>
            !Contains(s, "completed") && !Contains(s, "done") &&
            (Contains(s, "progress") || (Contains(s, "started") && !Contains(s, "not"))))
  {
    var s := Lower(Strip(val));
    if Contains(s, "in progress") { InProgressContainsProgress(s); }
  }

  /** The plain classifier gives in_progress exactly for text containing "progress"
      and neither "completed" nor "done". */
  lemma PlainStatusCases(val: string)
    ensures var s := Lower(Strip(val));
      && (PlainStatus(val) == Completed <==> Contains(s, "completed") || Contains(s, "done"))
      && (PlainStatus(val) == InProgress <==>
            !Contains(s, "completed") && !Contains(s, "done") && Contains(s, "progress"))
  {
    var s := Lower(Strip(val));
    if Contains(s, "in progress") { InProgressContainsProgress(s); }
  }

  /** The two classifiers part on "started" (in any case and padding, e.g.
      "Started", see `StartedLower`): in progress for the weekly tracker, not
      started for the other importers. */
  lemma StartedClassifiedDifferently(val: string)
    requires Lower(Strip(val)) == "started"
    ensures WeeklyStatus(val) == InProgress
    ensures PlainStatus(val) == NotStarted
  {
    StartedSpelling(Lower(Strip(val)));
  }

  lemma StartedLower()
    ensures Lower(Strip("Started")) == "started"
  {
    StripUnchanged("Started");
    var s := Lower("Started");
    assert |s| == 7;
    assert forall k :: 0 <= k < 7 ==> s[k] == LowerChar("Started"[k]);
  }

  lemma StartedSpelling(s: string)
    requires s == "started"
    ensures !Contains(s, "completed") && !Contains(s, "done") && !Contains(s, "progress")
    ensures !Contains(s, "in progress") && !Contains(s, "not") && Contains(s, "started")
  {
    AbsentChar(s, "completed", 0);
    AbsentChar(s, "done", 1);
    AbsentChar(s, "progress", 0);
    AbsentChar(s, "in progress", 1);
    AbsentChar(s, "not", 0);
    assert OccursAt(s, "started", 0);
  }

  /** Python's `round(x)` on a float: nearest integer, ties to the even one. */
  function RoundHalfEven(x: real): (r: int)
    ensures x - 0.5 <= r as real <= x + 0.5
    ensures (r as real == x - 0.5 || r as real == x + 0.5) ==> r % 2 == 0
  {
    var f := x.Floor;
    var d := x - f as real;
    if d < 0.5 then f
    else if d > 0.5 then f + 1
    else if f % 2 == 0 then f else f + 1
  }

  /** `max(0, min(100, v))`. */
  function Clamp(v: int): (r: int)
    ensures 0 <= r <= 100
    ensures 0 <= v <= 100 ==> r == v
    ensures v < 0 ==> r == 0
    ensures v > 100 ==> r == 100
  {
    if v < 0 then 0 else if v > 100 then 100 else v
  }

  /** The importers' scaling rule: a value in [0, 1] that is not a whole number
      is a fraction and is multiplied by 100; then it is rounded and clamped. */
  function Percent(v: real): (p: int)
    ensures 0 <= p <= 100
    ensures 0.0 < v < 1.0 ==> p == RoundHalfEven(v * 100.0)
    ensures !(0.0 < v < 1.0) ==> p == Clamp(RoundHalfEven(v))
  {
    var w := if 0.0 <= v <= 1.0 && v != v.Floor as real then v * 100.0 else v;
    Clamp(RoundHalfEven(w))
  }

  /** The progress cell of the weekly and challenges importers. Missing gives 0;
      text has "%" removed and is handed to `parse` (Python's `float`), where
      `None` is a parse failure and gives 0; a timestamp cannot be converted and
      gives 0. */
  function Progress(c: Cell, parse: string -> Option<real>): (p: int)
    ensures 0 <= p <= 100
    ensures c.Blank? || c.NaT? || c.Stamp? ==> p == 0
    ensures c.Number? ==> p == Percent(c.value)
    ensures c.Text? ==> p == TextProgress(c.s, parse)
  {
    match c
    case Blank => 0
    case NaT => 0
    case Text(s) => TextProgress(s, parse)
    case Number(v, _) => Percent(v)
    case Stamp(_, _) => 0
  }

  /** A text progress cell: "%" removed, then parsed; a parse failure gives 0. */
  function TextProgress(s: string, parse: string -> Option<real>): (p: int)
    ensures 0 <= p <= 100
  {
    match parse(NumberText(s))
    case None => 0
    case Some(v) => Percent(v)
  }

  /** `raw.strip().replace("%", "").strip()`: the text handed to `float`. */
  function NumberText(s: string): string
  {
    Strip(Delete(Strip(s), '%'))
  }

  /** A whole percentage in [0, 100] is kept as it is, so the rule is idempotent. */
  lemma PercentKeepsWhole(p: int)
    requires 0 <= p <= 100
    ensures Percent(p as real) == p
  {
    assert (p as real).Floor == p;
  }

  /** Normalising an already normalised value changes nothing. */
  lemma PercentIdempotent(v: real)
    ensures Percent(Percent(v) as real) == Percent(v)
  {
    PercentKeepsWhole(Percent(v));
  }

  /** A proper fraction is read as a share of 100. */
  lemma PercentOfFraction(f: real)
    requires 0.0 < f < 1.0
    ensures Percent(f) == RoundHalfEven(f * 100.0)
  {
    assert f.Floor == 0;
  }

  /** 0.73 is read as 73 per cent, and 73 stays 73. */
  lemma PercentExamples()
    ensures Percent(0.73) == 73
    ensures Percent(73.0) == 73
    ensures Percent(1.0) == 1
    ensures Percent(0.0) == 0
  {
    PercentOfFraction(0.73);
    PercentKeepsWhole(73);
    PercentKeepsWhole(1);
    PercentKeepsWhole(0);
  }

  /** Text progress: a trailing "%" is removed before parsing, so "75%" and "75"
      are read alike. */
  lemma ProgressIgnoresPercentSign(s: string, parse: string -> Option<real>)
    requires Strip(s) == s
    ensures Progress(Text(s + "%"), parse) == Progress(Text(s), parse)
  {
    PercentSignCleaned(s);
    ProgressOfText(s + "%", parse);
    ProgressOfText(s, parse);
  }

  lemma ProgressOfText(s: string, parse: string -> Option<real>)
    ensures Progress(Text(s), parse) == TextProgress(s, parse)
  {
  }

  /** The text handed to `float` is the same with or without a trailing "%". */
  lemma PercentSignCleaned(s: string)
    requires Strip(s) == s
    ensures NumberText(s + "%") == NumberText(s)
  {
    StripAppendPercent(s);
    DeleteAppendOther(s, '%');
  }

  lemma {:induction false} DeleteAppendOther(s: string, c: char)
    ensures Delete(s + [c], c) == Delete(s, c)
  {
    if s != [] {
      DeleteAppendOther(s[1..], c);
      assert (s + [c])[1..] == s[1..] + [c];
    }
  }

  lemma StripAppendPercent(s: string)
    requires Strip(s) == s
    ensures Strip(s + "%") == s + "%"
  {
    AppendPercentStripped(s);
  }

  /** Appending "%" to text that starts with a non-space keeps it stripped. */
  lemma AppendPercentStripped(s: string)
    requires s != [] ==> !IsSpace(s[0])
    ensures Strip(s + "%") == s + "%"
  {
    var t := s + "%";
    assert t[|t| - 1] == '%';
    if s != [] {
      assert t[0] == s[0];
    }
    StripUnchanged(t);
  }

  /** `_parse_date`: never fails. `None`, NaN, blank or unparseable input gives
      `None`; a timestamp gives its date; NaT has a `date` method too and gives
      back NaT; other text is handed to `parseDate` (pandas' `to_datetime`). */
  function ParseDate(c: Cell, parseDate: string -> Option<Date>): (r: Option<Date>)
    ensures Clean(c) == [] && !c.Stamp? ==> r.None?
    ensures c.Stamp? ==> r == Some(c.day)
    ensures c.NaT? ==> r == Some(NaTDay)
  {
    match c
    case Blank => None
    case NaT => Some(NaTDay)
    case Stamp(d, _) => Some(d)
    case _ => var s := Clean(c); if s == [] then None else parseDate(s)
  }
}
