/**
 * The values the dashboard views compute from stored records: the theme
 * colour dictionary, the project tracker's per-phase progress and month
 * sections, a warehouse's employee chart percentage and badge colour, the
 * phase-section ribbons and the recommendation cards.
 */
module Context {
  import opened Text
  import opened Cells
  import opened Rows
  import opened Models

  // ---------------------------------------------------------------------
  // Theme dictionary

  /** One pass of the defaults loop: a key that is missing or empty gets its
      default value. */
  function Fill(theme: map<string, string>, d: Default): (r: map<string, string>)
  {
    if d.key !in theme || theme[d.key] == [] then theme[d.key := d.value] else theme
  }

  /** The defaults loop over a default table, starting from `theme`. */
  function FillAll(theme: map<string, string>, ds: seq<Default>): map<string, string>
    decreases |ds|
  {
    if ds == [] then theme else Fill(FillAll(theme, ds[..|ds| - 1]), ds[|ds| - 1])
  }

  /** `{key: value for key, value, desc, cat in ds}`: a later duplicate key wins. */
  function ValuesMap(ds: seq<Default>): map<string, string>
    decreases |ds|
  {
    if ds == [] then map[] else ValuesMap(ds[..|ds| - 1])[ds[|ds| - 1].key := ds[|ds| - 1].value]
  }

  /** Fills in the defaults for any missing or empty key of `theme`. */
  method FillDefaults(theme: map<string, string>, ds: seq<Default>) returns (r: map<string, string>)
    ensures r == FillAll(theme, ds)
  {
    r := theme;
    var i := 0;
    while i < |ds|
      invariant 0 <= i <= |ds|
      invariant r == FillAll(theme, ds[..i])
    {
      assert ds[..i + 1][..i] == ds[..i];
      var d := ds[i];
      if d.key !in r || r[d.key] == [] {
        r := r[d.key := d.value];
      }
      i := i + 1;
    }
    assert ds[..i] == ds;
  }

  /** `get_dashboard_theme_dict()`: the stored values (an empty string for a
      missing value) with the defaults filled in; when the table cannot be read,
      the default values alone. */
  method ThemeDict(read: Outcome<map<string, string>>) returns (theme: map<string, string>)
    ensures read.Got? ==> theme == FillAll(read.value, Defaults)
    ensures read.Failed? ==> theme == ValuesMap(Defaults)
  {
    match read {
      case Got(stored) =>
        theme := FillDefaults(stored, Defaults);
      case Failed(_) =>
        theme := ValuesMap(Defaults);
    }
  }

  /** With distinct keys the last row's key is not among the earlier ones. */
  lemma LastKeyIsNew(ds: seq<Default>)
    requires DistinctKeys(ds) && ds != []
    ensures ds[|ds| - 1].key !in Keys(ds[..|ds| - 1])
  {
  }

  /** Filling adds exactly the default keys and keeps every key outside the
      defaults as stored. */
  lemma {:induction false} FillAllKeys(theme: map<string, string>, ds: seq<Default>)
    ensures FillAll(theme, ds).Keys == theme.Keys + Keys(ds)
    ensures forall k :: k in theme && k !in Keys(ds) ==> FillAll(theme, ds)[k] == theme[k]
    decreases |ds|
  {
    if ds != [] {
      FillAllKeys(theme, ds[..|ds| - 1]);
      assert Keys(ds) == Keys(ds[..|ds| - 1]) + {ds[|ds| - 1].key};
    }
  }

  /** A default key ends with its stored value when that is non-empty and
      its default value otherwise (keys being distinct). */
  lemma {:induction false} FillAllValues(theme: map<string, string>, ds: seq<Default>)
    requires DistinctKeys(ds)
    ensures forall i :: 0 <= i < |ds| ==>
      && ds[i].key in FillAll(theme, ds)
      && FillAll(theme, ds)[ds[i].key] == if ds[i].key in theme && theme[ds[i].key] != [] then theme[ds[i].key] else ds[i].value
    decreases |ds|
  {
    if ds != [] {
      var front := ds[..|ds| - 1];
      FillAllValues(theme, front);
      var m := FillAll(theme, front);
      var d := ds[|ds| - 1];
      assert FillAll(theme, ds) == Fill(m, d);
      forall i | 0 <= i < |ds|
        ensures ds[i].key in Fill(m, d)
        ensures Fill(m, d)[ds[i].key] == if ds[i].key in theme && theme[ds[i].key] != [] then theme[ds[i].key] else ds[i].value
      {
        if i < |front| {
          assert front[i] == ds[i] && ds[i].key != d.key;
        } else {
          FillAllKeys(theme, front);
          LastKeyIsNew(ds);
          assert d.key in m <==> d.key in theme;
        }
      }
    }
  }

  /** The failure fallback holds exactly the default keys, each with its
      default value (keys being distinct). */
  lemma {:induction false} ValuesMapValues(ds: seq<Default>)
    requires DistinctKeys(ds)
    ensures ValuesMap(ds).Keys == Keys(ds)
    ensures forall i :: 0 <= i < |ds| ==> ValuesMap(ds)[ds[i].key] == ds[i].value
    decreases |ds|
  {
    if ds != [] {
      var front, last := ds[..|ds| - 1], ds[|ds| - 1];
      ValuesMapValues(front);
      assert ValuesMap(ds) == ValuesMap(front)[last.key := last.value];
      assert Keys(ds) == Keys(front) + {last.key};
      forall i | 0 <= i < |ds|
        ensures ValuesMap(ds)[ds[i].key] == ds[i].value
      {
        if i < |front| {
          assert front[i] == ds[i] && ds[i].key != last.key;
        }
      }
    }
  }

  /** After the merge every default key has a non-empty value: the stored one
      when it is non-empty, the default otherwise; other stored keys are kept
      as they were. */
  lemma ThemeDictComplete(stored: map<string, string>)
    ensures var theme := FillAll(stored, Defaults);
      && theme.Keys == stored.Keys + Keys(Defaults)
      && (forall i :: 0 <= i < |Defaults| ==> Defaults[i].key in theme && theme[Defaults[i].key] != [])
      && (forall i :: 0 <= i < |Defaults| && Defaults[i].key in stored && stored[Defaults[i].key] != [] ==>
            theme[Defaults[i].key] == stored[Defaults[i].key])
      && (forall k :: k in stored && k !in Keys(Defaults) ==> theme[k] == stored[k])
  {
    DefaultsShape();
    FillAllComplete(stored, Defaults);
  }

  /** `ThemeDictComplete` for any table with distinct keys and non-empty
      default values. */
  lemma FillAllComplete(stored: map<string, string>, ds: seq<Default>)
    requires DistinctKeys(ds)
    requires forall i :: 0 <= i < |ds| ==> ds[i].value != []
    ensures var theme := FillAll(stored, ds);
      && theme.Keys == stored.Keys + Keys(ds)
      && (forall i :: 0 <= i < |ds| ==> ds[i].key in theme && theme[ds[i].key] != [])
      && (forall i :: 0 <= i < |ds| && ds[i].key in stored && stored[ds[i].key] != [] ==>
            theme[ds[i].key] == stored[ds[i].key])
      && (forall k :: k in stored && k !in Keys(ds) ==> theme[k] == stored[k])
  {
    FillAllKeys(stored, ds);
    FillAllValues(stored, ds);
  }

  /** Two maps over the keys of a table that agree at every row agree. */
  lemma SameOnKeys(a: map<string, string>, b: map<string, string>, ds: seq<Default>)
    requires a.Keys == Keys(ds) && b.Keys == Keys(ds)
    requires forall i :: 0 <= i < |ds| ==> a[ds[i].key] == b[ds[i].key]
    ensures a == b
  {
    forall k | k in a
      ensures a[k] == b[k]
    {
      var i :| 0 <= i < |ds| && ds[i].key == k;
    }
  }

  /** When the table cannot be read the dictionary is what an empty table
      would give: the default values. */
  lemma FallbackIsEmptyMerge()
    ensures ValuesMap(Defaults) == FillAll(map[], Defaults)
  {
    DefaultsShape();
    FillAllKeys(map[], Defaults);
    FillAllValues(map[], Defaults);
    ValuesMapValues(Defaults);
    SameOnKeys(ValuesMap(Defaults), FillAll(map[], Defaults), Defaults);
  }

  // ---------------------------------------------------------------------
  // Phase progress

  /** How many entries equal `v`. */
  function Count(xs: seq<string>, v: string): (n: nat)
    ensures n <= |xs|
    decreases |xs|
  {
    if xs == [] then 0 else Count(xs[..|xs| - 1], v) + (if xs[|xs| - 1] == v then 1 else 0)
  }

  /** `round(100 * n / total)`. */
  function Share(n: nat, total: nat): (p: int)
    requires n <= total && total > 0
    ensures 0 <= p <= 100
  {
    var x := 100.0 * n as real / total as real;
    assert 0.0 <= x <= 100.0;
    RoundHalfEven(x)
  }

  /** The share is the whole percentage within one half of `100 * n / total`,
      the even one when two are. */
  lemma ShareWithinHalf(n: nat, total: nat)
    requires n <= total && total > 0
    ensures var p := Share(n, total);
      && (p as real - 0.5) * total as real <= 100.0 * n as real <= (p as real + 0.5) * total as real
      && (((p as real - 0.5) * total as real == 100.0 * n as real
           || (p as real + 0.5) * total as real == 100.0 * n as real) ==> p % 2 == 0)
  {
    ScaledHalf(100.0 * n as real, total as real, Share(n, total) as real);
  }

  /** A quotient within one half of `p`, multiplied back by its divisor. */
  lemma ScaledHalf(a: real, b: real, p: real)
    requires b > 0.0 && p - 0.5 <= a / b <= p + 0.5
    ensures (p - 0.5) * b <= a <= (p + 0.5) * b
    ensures (p - 0.5) * b == a ==> p - 0.5 == a / b
    ensures (p + 0.5) * b == a ==> p + 0.5 == a / b
  {
    var q := a / b;
    assert a == q * b;
    NonNegativeProduct(q - (p - 0.5), b);
    NonNegativeProduct((p + 0.5) - q, b);
    assert (q - (p - 0.5)) * b == a - (p - 0.5) * b;
    assert ((p + 0.5) - q) * b == (p + 0.5) * b - a;
  }

  lemma NonNegativeProduct(x: real, y: real)
    requires x >= 0.0 && y > 0.0
    ensures x * y >= 0.0
    ensures x * y == 0.0 ==> x == 0.0
  {
  }

  /** The numbers of one phase: counts and rounded percentages. */
  datatype PhaseProgress = PhaseProgress(done: nat, workingOnIt: nat, stuck: nat, empty: nat, total: nat,
                                         donePct: int, workingOnItPct: int, stuckPct: int, emptyPct: int)

  /** The three distinct status values never overlap, so their counts add up
      to at most the total. */
  lemma {:induction false} CountsFit(xs: seq<string>)
    ensures Count(xs, "done") + Count(xs, "working_on_it") + Count(xs, "stuck") <= |xs|
    decreases |xs|
  {
    if xs != [] {
      CountsFit(xs[..|xs| - 1]);
    }
  }

  /** `phase_progress(items, phase_key)` over the items' status for the phase. */
  function Progress(statuses: seq<string>): (p: PhaseProgress)
    ensures p.total == |statuses|
    ensures p.done + p.workingOnIt + p.stuck + p.empty == p.total
    ensures p.done == Count(statuses, "done") && p.workingOnIt == Count(statuses, "working_on_it")
    ensures p.stuck == Count(statuses, "stuck")
    ensures 0 <= p.donePct <= 100 && 0 <= p.workingOnItPct <= 100 && 0 <= p.stuckPct <= 100
    ensures 0 <= p.emptyPct <= 100
    ensures p.emptyPct == if p.donePct + p.workingOnItPct + p.stuckPct >= 100 then 0
                          else 100 - p.donePct - p.workingOnItPct - p.stuckPct
    ensures statuses == [] ==> p == PhaseProgress(0, 0, 0, 0, 0, 0, 0, 0, 100)
    ensures p.total > 0 ==> p.donePct == Share(p.done, p.total) && p.workingOnItPct == Share(p.workingOnIt, p.total)
    ensures p.total > 0 ==> p.stuckPct == Share(p.stuck, p.total)
  {
    var total := |statuses|;
    if total == 0 then PhaseProgress(0, 0, 0, 0, 0, 0, 0, 0, 100)
    else
      var done := Count(statuses, "done");
      var working := Count(statuses, "working_on_it");
      var stuck := Count(statuses, "stuck");
      CountsFit(statuses);
      var donePct := Share(done, total);
      var workingPct := Share(working, total);
      var stuckPct := Share(stuck, total);
      var emptyPct := 100 - donePct - workingPct - stuckPct;
      PhaseProgress(done, working, stuck, total - done - working - stuck, total,
                    donePct, workingPct, stuckPct, if emptyPct < 0 then 0 else emptyPct)
  }

  /** The four percentages add up to at least 100, and to exactly 100 unless the
      three rounded shares already exceed it. */
  lemma PercentagesCover(statuses: seq<string>)
    ensures var p := Progress(statuses);
      && p.donePct + p.workingOnItPct + p.stuckPct + p.emptyPct >= 100
      && (p.donePct + p.workingOnItPct + p.stuckPct <= 100 ==> p.donePct + p.workingOnItPct + p.stuckPct + p.emptyPct == 100)
  {
  }

  /** Rounding can show an empty share with no empty item: one item in each
      of the three states gives 33 + 33 + 33 and an empty share of 1. */
  lemma EmptyShareWithoutEmptyItems()
    ensures var p := Progress(["done", "working_on_it", "stuck"]);
      p.empty == 0 && p.donePct == 33 && p.workingOnItPct == 33 && p.stuckPct == 33 && p.emptyPct == 1
  {
    var s := ["done", "working_on_it", "stuck"];
    assert s[..2][..1] == ["done"] && s[..2] == ["done", "working_on_it"];
    assert Count(s, "done") == 1 && Count(s, "working_on_it") == 1 && Count(s, "stuck") == 1;
    assert 100.0 * 1 as real / 3 as real == 100.0 / 3.0;
    assert (100.0 / 3.0).Floor == 33;
  }

  // ---------------------------------------------------------------------
  // Employee chart percentage

  /** The employee chart percentage: none without an allocated count, 0 for an
      allocated count of 0, otherwise `round(pending / allocatedCount * 100)` clamped
      to [0, 100], a missing pending count counting as 0. */
  function ChartPercent(allocatedCount: Option<nat>, pending: Option<nat>): (r: Option<int>)
    ensures r.None? <==> allocatedCount.None?
    ensures r.Some? ==> 0 <= r.value <= 100
    ensures allocatedCount == Some(0) ==> r == Some(0)
    ensures allocatedCount.Some? && (pending.None? || pending == Some(0)) ==> r == Some(0)
    ensures allocatedCount.Some? && allocatedCount.value > 0 && pending.Some? && pending.value >= allocatedCount.value ==> r == Some(100)
    ensures allocatedCount.Some? && allocatedCount.value > 0 && pending.Some? && pending.value <= allocatedCount.value ==>
              r == Some(Share(pending.value, allocatedCount.value))
  {
    match allocatedCount
    case None => None
    case Some(a) =>
      if a > 0 then
        var p := if pending.Some? then pending.value else 0;
        RatioTimesHundred(p, a);
        Some(Clamp(RoundHalfEven(p as real / a as real * 100.0)))
      else Some(0)
  }

  /** `pending / allocated * 100` is `100 * pending / allocated`, and at least
      100 once pending reaches the allocated count. */
  lemma RatioTimesHundred(p: nat, a: nat)
    requires a > 0
    ensures p as real / a as real * 100.0 == 100.0 * p as real / a as real
    ensures p >= a ==> p as real / a as real * 100.0 >= 100.0
  {
  }

  /** Rounding never reverses an order. */
  lemma RoundMonotone(x: real, y: real)
    requires x <= y
    ensures RoundHalfEven(x) <= RoundHalfEven(y)
  {
  }

  /** More pending records never lower the chart. */
  lemma ChartPercentMonotone(allocatedCount: nat, p1: nat, p2: nat)
    requires p1 <= p2
    ensures ChartPercent(Some(allocatedCount), Some(p1)).value <= ChartPercent(Some(allocatedCount), Some(p2)).value
  {
    if allocatedCount > 0 {
      assert p1 as real / allocatedCount as real <= p2 as real / allocatedCount as real;
      RoundMonotone(p1 as real / allocatedCount as real * 100.0, p2 as real / allocatedCount as real * 100.0);
    }
  }

  // ---------------------------------------------------------------------
  // Warehouse badge colour

  /** A warehouse status: its name and stored colour. */
  datatype StatusRow = StatusRow(name: string, colorHex: string)

  const Gray := "#6c757d"
  const Green := "#2e7d32"
  const Orange := "#f57c00"

  /** The badge colour: gray without a status; the stored colour when it is
      set and not gray (in any case); otherwise orange for a "partial" name
      without "active", and green for the rest. */
  function BadgeColor(status: Option<StatusRow>): (r: string)
    ensures status.None? ==> r == Gray
    ensures status.Some? && Strip(status.value.colorHex) != [] && Lower(Strip(status.value.colorHex)) != Gray ==>
      r == Strip(status.value.colorHex)
    ensures status.Some? && (Strip(status.value.colorHex) == [] || Lower(Strip(status.value.colorHex)) == Gray) ==>
      r == (if Contains(Lower(Strip(status.value.name)), "partial") && !Contains(Lower(Strip(status.value.name)), "active")
            then Orange else Green)
    ensures status.Some? ==> (r == Strip(status.value.colorHex) && Lower(r) != Gray) || r == Green || r == Orange
  {
    match status
    case None => Gray
    case Some(s) =>
      var hex := Strip(s.colorHex);
      if hex != [] && Lower(hex) != Gray then hex
      else
        var name := Lower(Strip(s.name));
        if Contains(name, "active") then Green
        else if Contains(name, "partial") then Orange
        else Green
  }

  /** Gray, in any letter case, is only ever shown for a warehouse with no
      status. */
  lemma BadgeGrayOnlyWithoutStatus(status: Option<StatusRow>)
    ensures Lower(BadgeColor(status)) == Gray <==> status.None?
  {
    var r := BadgeColor(status);
    if status.None? {
      LowerUnchanged(Gray);
    } else if Strip(status.value.colorHex) != [] && Lower(Strip(status.value.colorHex)) != Gray {
      assert r == Strip(status.value.colorHex);
    } else {
      NamedColorsNotGray();
      assert r == Green || r == Orange;
    }
  }

  /** Green and orange differ from gray in any letter case. */
  lemma NamedColorsNotGray()
    ensures Lower(Green) != Gray && Lower(Orange) != Gray
  {
    LowerUnchanged(Green);
    LowerUnchanged(Orange);
    assert Green[1] != Gray[1] && Orange[1] != Gray[1];
  }

  // ---------------------------------------------------------------------
  // Month labels

  /** The month before (year, month); January goes back to December of the
      year before. */
  function PreviousMonth(year: int, month: int): (r: (int, int))
    requires 1 <= month <= 12
    ensures 1 <= r.1 <= 12
    ensures month > 1 ==> r == (year, month - 1)
    ensures month == 1 ==> r == (year - 1, 12)
  {
    if month == 1 then (year - 1, 12) else (year, month - 1)
  }

  /** `calendar.month_abbr`. */
  function MonthAbbr(m: int): (r: string)
    requires 1 <= m <= 12
    ensures |r| == 3
  {
    ["Jan", "Feb", "Mar", "Apr", "May", "Jun", "Jul", "Aug", "Sep", "Oct", "Nov", "Dec"][m - 1]
  }

  /** A month section's label and style class. */
  datatype Label = Label(text: string, cssClass: string)

  /** The label of the section for (year, month) on a day in (thisYear,
      thisMonth). */
  function MonthLabel(year: nat, month: int, thisYear: nat, thisMonth: int): (r: Label)
    requires 1 <= month <= 12 && 1 <= thisMonth <= 12
    ensures r.text == "This month" <==> (year, month) == (thisYear as int, thisMonth)
    ensures r.text == "Last month" <==> (year as int, month) == PreviousMonth(thisYear, thisMonth)
    ensures r.text != "This month" && r.text != "Last month" ==> r == Label(MonthAbbr(month) + " " + Decimal(year), "month-other")
  {
    if year == thisYear && month == thisMonth then Label("This month", "this-month")
    else if (year == thisYear && month == thisMonth - 1) || (year == thisYear - 1 && thisMonth == 1 && month == 12) then
      Label("Last month", "last-month")
    else
      var r := Label(MonthAbbr(month) + " " + Decimal(year), "month-other");
      assert r.text[3] == ' ';
      assert "This month"[3] != ' ' && "Last month"[3] != ' ';
      r
  }

  // ---------------------------------------------------------------------
  // Project tracker month sections

  /** A tracker item's status in each of the three phases ("" when unset). */
  datatype TrackerItem = TrackerItem(brainstorming: string, execution: string, launch: string)

  /** The items of one month with data, as the queryset returns them. */
  datatype MonthData = MonthData(year: nat, month: int, items: seq<TrackerItem>)

  datatype TrackerProgress = TrackerProgress(brainstorming: PhaseProgress, execution: PhaseProgress, launch: PhaseProgress)

  datatype Section = Section(heading: Label, items: seq<TrackerItem>, progress: TrackerProgress)

  /** The `phase_key` handed to `phase_progress`. */
  datatype PhaseKey = BrainstormingStatus | ExecutionStatus | LaunchStatus

  function StatusOf(item: TrackerItem, key: PhaseKey): string
  {
    match key
    case BrainstormingStatus => item.brainstorming
    case ExecutionStatus => item.execution
    case LaunchStatus => item.launch
  }

  /** `i.get(phase_key)` for every item, in order. */
  function PhaseStatuses(items: seq<TrackerItem>, key: PhaseKey): (r: seq<string>)
    ensures |r| == |items|
  {
    seq(|items|, k requires 0 <= k < |items| => StatusOf(items[k], key))
  }

  /** The progress of each phase over a month's items. */
  function PhasesOf(items: seq<TrackerItem>): (p: TrackerProgress)
    ensures p.brainstorming.total == p.execution.total == p.launch.total == |items|
    ensures p.brainstorming == Progress(PhaseStatuses(items, BrainstormingStatus))
    ensures p.execution == Progress(PhaseStatuses(items, ExecutionStatus))
    ensures p.launch == Progress(PhaseStatuses(items, LaunchStatus))
  {
    TrackerProgress(Progress(PhaseStatuses(items, BrainstormingStatus)), Progress(PhaseStatuses(items, ExecutionStatus)),
                    Progress(PhaseStatuses(items, LaunchStatus)))
  }

  /** An item done in a phase makes that phase's done count positive. */
  lemma PhaseDoneCounted(items: seq<TrackerItem>, key: PhaseKey, k: nat)
    requires k < |items| && StatusOf(items[k], key) == "done"
    ensures Progress(PhaseStatuses(items, key)).done > 0
  {
    CountPositive(PhaseStatuses(items, key), "done", k);
  }


  /** A value that occurs is counted. */
  lemma {:induction false} CountPositive(xs: seq<string>, v: string, k: nat)
    requires k < |xs| && xs[k] == v
    ensures Count(xs, v) > 0
    decreases |xs|
  {
    if k < |xs| - 1 {
      CountPositive(xs[..|xs| - 1], v, k);
    }
  }

  predicate ValidMonth(m: MonthData)
  {
    1 <= m.month <= 12
  }

  /** One month section. */
  function SectionOf(m: MonthData, thisYear: nat, thisMonth: int): (s: Section)
    requires ValidMonth(m) && 1 <= thisMonth <= 12
    ensures s.items == m.items
    ensures s.heading == MonthLabel(m.year, m.month, thisYear, thisMonth)
    ensures s.progress == PhasesOf(m.items)
  {
    Section(MonthLabel(m.year, m.month, thisYear, thisMonth), m.items, PhasesOf(m.items))
  }

  /** The loop building `month_sections`, newest month first. */
  method MonthSections(months: seq<MonthData>, thisYear: nat, thisMonth: int) returns (sections: seq<Section>)
    requires forall k :: 0 <= k < |months| ==> ValidMonth(months[k])
    requires 1 <= thisMonth <= 12
    ensures |sections| == |months|
    ensures forall k :: 0 <= k < |months| ==> sections[k] == SectionOf(months[k], thisYear, thisMonth)
  {
    sections := [];
    var i := 0;
    while i < |months|
      invariant 0 <= i <= |months|
      invariant |sections| == i
      invariant forall k :: 0 <= k < i ==> sections[k] == SectionOf(months[k], thisYear, thisMonth)
    {
      sections := sections + [SectionOf(months[i], thisYear, thisMonth)];
      i := i + 1;
    }
  }

  /** What the tracker view receives besides the sections. */
  datatype Tracker = Tracker(sections: seq<Section>, thisMonth: seq<TrackerItem>, lastMonth: seq<TrackerItem>,
                             thisProgress: TrackerProgress, lastProgress: TrackerProgress)

  const NoProgress: TrackerProgress := TrackerProgress(Progress([]), Progress([]), Progress([]))

  /** The "this month" and "last month" slots: the first and second sections,
      whatever their months; with fewer sections, empty items, and the last
      month's progress repeats this month's. */
  function Summary(sections: seq<Section>): (t: Tracker)
    ensures t.sections == sections
    ensures t.thisMonth == (if sections != [] then sections[0].items else [])
    ensures t.lastMonth == (if |sections| > 1 then sections[1].items else [])
    ensures t.thisProgress == (if sections != [] then sections[0].progress else NoProgress)
    ensures t.lastProgress == (if |sections| > 1 then sections[1].progress else t.thisProgress)
  {
    var thisProgress := if sections != [] then sections[0].progress else NoProgress;
    Tracker(sections,
            if sections != [] then sections[0].items else [],
            if |sections| > 1 then sections[1].items else [],
            thisProgress,
            if |sections| > 1 then sections[1].progress else thisProgress)
  }

  /** `get_project_tracker_list`: the sections and slots, or all of it empty
      when the query fails. */
  method ProjectTracker(read: Outcome<seq<MonthData>>, thisYear: nat, thisMonth: int) returns (t: Tracker)
    requires read.Got? ==> forall k :: 0 <= k < |read.value| ==> ValidMonth(read.value[k])
    requires 1 <= thisMonth <= 12
    ensures read.Failed? ==> t == Tracker([], [], [], NoProgress, NoProgress)
    ensures read.Got? ==> |t.sections| == |read.value| && t == Summary(t.sections)
    ensures read.Got? ==> forall k :: 0 <= k < |read.value| ==> t.sections[k] == SectionOf(read.value[k], thisYear, thisMonth)
  {
    match read {
      case Failed(_) =>
        t := Tracker([], [], [], NoProgress, NoProgress);
      case Got(months) =>
        var sections := MonthSections(months, thisYear, thisMonth);
        t := Summary(sections);
    }
  }

  /** The "this month" slot holds the newest month with data even when that is
      not the current month, in which case its section is not labelled
      "This month". */
  lemma ThisMonthSlotIsNewest(months: seq<MonthData>, thisYear: nat, thisMonth: int)
    requires forall k :: 0 <= k < |months| ==> ValidMonth(months[k])
    requires 1 <= thisMonth <= 12
    requires months != [] && (months[0].year, months[0].month) != (thisYear as int, thisMonth)
    ensures var sections := seq(|months|, k requires 0 <= k < |months| => SectionOf(months[k], thisYear, thisMonth));
      && Summary(sections).thisMonth == months[0].items
      && sections[0].heading.text != "This month"
  {
  }

  // ---------------------------------------------------------------------
  // Phase-section ribbons

  /** The number and label on a phase section's ribbon. */
  datatype Ribbon = Ribbon(number: string, caption: string)

  /** A string whose first character is not white space does not strip to
      nothing. */
  lemma StripNonEmpty(s: string)
    requires s != [] && !IsSpace(s[0])
    ensures Strip(s) != []
  {
    StripEmptyIff(s);
  }

  /** The caption shown with a days number: the stripped label, or "DAYS"
      when that is empty. */
  function DaysCaption(daysLabel: string): (c: string)
    ensures c != []
    ensures Strip(daysLabel) != [] ==> c == Strip(daysLabel)
    ensures Strip(daysLabel) == [] ==> c == "DAYS"
  {
    // `(days_label or "DAYS").strip() or "DAYS"`: "DAYS" strips to itself
    if daysLabel == [] then "DAYS"
    else
      var l := Strip(daysLabel);
      if l == [] then "DAYS" else l
  }

  /** The ribbon read from a stripped title: a leading all-digit word is the
      number and the rest the caption (or "DAYS"); without one the number is
      empty and the caption is the title (or "DAYS"). */
  function TitleRibbon(t: string): (r: Ribbon)
    ensures r.caption != []
    ensures r.number != [] <==> SplitFirst(t) != [] && IsDigits(SplitFirst(t)[0])
    ensures r.number != [] ==> r.number == SplitFirst(t)[0]
    ensures r.number != [] && |SplitFirst(t)| == 2 ==> r.caption == Strip(SplitFirst(t)[1])
    ensures r.number == [] ==> r.caption == if t == [] then "DAYS" else t
  {
    var parts := SplitFirst(t);
    if parts != [] && IsDigits(parts[0]) then
      if |parts| > 1 then
        StripNonEmpty(parts[1]);
        Ribbon(parts[0], Strip(parts[1]))
      else Ribbon(parts[0], "DAYS")
    else Ribbon("", if t == [] then "DAYS" else t)
  }

  /** The ribbon of a section: from its days number when set, else from its
      stripped title. */
  function SectionRibbon(daysNumber: Option<nat>, daysLabel: string, title: Option<string>): (r: Ribbon)
    ensures r.caption != []
    ensures r.number == [] || IsDigits(r.number)
    ensures daysNumber.Some? ==> r == Ribbon(Decimal(daysNumber.value), DaysCaption(daysLabel))
    ensures daysNumber.None? ==> r == TitleRibbon(Strip(if title.Some? then title.value else ""))
  {
    match daysNumber
    case Some(n) => Ribbon(Decimal(n), DaysCaption(daysLabel))
    case None => TitleRibbon(Strip(if title.Some? then title.value else ""))
  }

  /** The word before the first white space of `w + rest` is `w` when `w` has
      no white space and `rest` starts with some. */
  lemma {:induction false} TokenOfWord(w: string, rest: string)
    requires forall k :: 0 <= k < |w| ==> !IsSpace(w[k])
    requires rest != [] && IsSpace(rest[0])
    ensures TokenLength(w + rest) == |w|
    decreases |w|
  {
    if w != [] {
      assert (w + rest)[1..] == w[1..] + rest;
      TokenOfWord(w[1..], rest);
    }
  }

  /** A string that starts with a non-space character has nothing to trim
      on the left. */
  lemma TrimLeftUnchanged(s: string)
    requires s != [] && !IsSpace(s[0])
    ensures TrimLeft(s) == s
  {
  }

  /** One leading space is trimmed off a string that starts with a
      non-space character. */
  lemma TrimLeftOneSpace(s: string)
    requires s != [] && !IsSpace(s[0])
    ensures TrimLeft(" " + s) == s
  {
    assert (" " + s)[1..] == s;
    TrimLeftUnchanged(s);
  }

  /** A run of digits holds no white space. */
  lemma DigitsHaveNoSpace(d: string)
    requires IsDigits(d)
    ensures d != [] && forall k :: 0 <= k < |d| ==> !IsSpace(d[k])
  {
    forall k | 0 <= k < |d|
      ensures !IsSpace(d[k])
    {
      assert IsDigit(d[k]);
    }
  }

  /** Splitting "N CAPTION" gives the number and the caption. */
  lemma SplitNumbered(d: string, caption: string)
    requires IsDigits(d)
    requires caption != [] && !IsSpace(caption[0])
    ensures SplitFirst(d + " " + caption) == [d, caption]
  {
    var rest := " " + caption;
    var t := d + rest;
    assert t == d + " " + caption;
    DigitsHaveNoSpace(d);
    TrimLeftUnchanged(t);
    TokenOfWord(d, rest);
    assert t[..|d|] == d;
    assert t[|d|..] == rest;
    TrimLeftOneSpace(caption);
  }

  /** A title "N LABEL" gives the same ribbon as days number N with label
      LABEL, for a label without surrounding white space. */
  lemma TitleMatchesDaysNumber(n: nat, caption: string, daysLabel: string)
    requires caption != [] && !IsSpace(caption[0]) && !IsSpace(caption[|caption| - 1])
    ensures SectionRibbon(None, daysLabel, Some(Decimal(n) + " " + caption)) == SectionRibbon(Some(n), caption, None)
  {
    var t := Decimal(n) + " " + caption;
    StripUnchanged(t);
    StripUnchanged(caption);
    SplitNumbered(Decimal(n), caption);
  }

  /** A section with a days number shows as "N LABEL" in both the ribbon and
      its display string, for a label without surrounding white space. */
  lemma SectionLabelJoinsRibbon(n: nat, daysLabel: string, title: Option<string>)
    requires daysLabel != [] ==> !IsSpace(daysLabel[0]) && !IsSpace(daysLabel[|daysLabel| - 1])
    ensures var r := SectionRibbon(Some(n), daysLabel, title);
      PhaseSectionLabel(Some(n), daysLabel, title) == r.number + " " + r.caption
  {
    StripUnchanged(daysLabel);
  }

  // ---------------------------------------------------------------------
  // Recommendation cards

  /** An active recommendation, in the order of the query (business, user
      name, display order, id); an empty business or user name stands for a
      missing one, and `customIcon` is the uploaded icon's URL, if any. */
  datatype Recommendation = Recommendation(id: int, business: string, userName: string, title: string,
                                           description: string, iconType: string, customIcon: Option<string>,
                                           iconBgColor: string, displayOrder: int)

  /** A card item. */
  datatype Item = Item(id: int, title: string, description: string, iconType: string,
                       customIcon: Option<string>, iconBgColor: string, displayOrder: int)

  /** A card: the group's business ("—" when empty), user name, logo and items. */
  datatype Card = Card(business: string, userName: string, logoUrl: Option<string>, items: seq<Item>)

  /** A run of consecutive recommendations with the same business and user name. */
  datatype Group = Group(business: string, userName: string, members: seq<Recommendation>)

  function ItemOf(r: Recommendation): (i: Item)
    ensures i.iconBgColor != []
    ensures r.iconBgColor != [] ==> i.iconBgColor == r.iconBgColor
  {
    Item(r.id, r.title, r.description, r.iconType, r.customIcon,
         if r.iconBgColor == [] then "#f5f5f0" else r.iconBgColor, r.displayOrder)
  }

  predicate SameKey(g: Group, r: Recommendation)
  {
    g.business == r.business && g.userName == r.userName
  }

  /** `itertools.groupby` on (business, user name): consecutive equal keys
      form one group. */
  function GroupBy(recs: seq<Recommendation>): seq<Group>
    decreases |recs|
  {
    if recs == [] then [] else Grouped(GroupBy(recs[..|recs| - 1]), recs[|recs| - 1])
  }

  /** One step of the grouping: the next recommendation joins the last group
      when it has that group's key, and starts a new group otherwise. */
  function Grouped(gs: seq<Group>, r: Recommendation): seq<Group>
  {
    if gs != [] && SameKey(gs[|gs| - 1], r) then
      gs[..|gs| - 1] + [gs[|gs| - 1].(members := gs[|gs| - 1].members + [r])]
    else gs + [Group(r.business, r.userName, [r])]
  }

  /** The members of groups, in order. */
  function Members(gs: seq<Group>): seq<Recommendation>
    decreases |gs|
  {
    if gs == [] then [] else Members(gs[..|gs| - 1]) + gs[|gs| - 1].members
  }

  /** Every group holds at least one recommendation. */
  predicate NonEmptyGroups(gs: seq<Group>)
  {
    forall g :: 0 <= g < |gs| ==> gs[g].members != []
  }

  /** Every recommendation of a group has the group's key. */
  predicate UniformGroups(gs: seq<Group>)
  {
    forall g, k :: 0 <= g < |gs| && 0 <= k < |gs[g].members| ==> SameKey(gs[g], gs[g].members[k])
  }

  /** Neighbouring groups differ in key. */
  predicate SeparatedGroups(gs: seq<Group>)
  {
    forall g, h :: 0 <= g < |gs| && g < h < |gs| && h == g + 1 ==> KeyOf(gs[g]) != KeyOf(gs[h])
  }

  function KeyOf(g: Group): (string, string)
  {
    (g.business, g.userName)
  }

  predicate WellGrouped(gs: seq<Group>)
  {
    NonEmptyGroups(gs) && UniformGroups(gs) && SeparatedGroups(gs)
  }

  lemma MembersSnoc(gs: seq<Group>, g: Group)
    ensures Members(gs + [g]) == Members(gs) + g.members
  {
    assert (gs + [g])[..|gs|] == gs;
  }

  /** A recommendation with the last group's key joins that group. */
  lemma JoinLastGroup(gs: seq<Group>, r: Recommendation)
    requires WellGrouped(gs) && gs != [] && SameKey(gs[|gs| - 1], r)
    ensures WellGrouped(gs[..|gs| - 1] + [gs[|gs| - 1].(members := gs[|gs| - 1].members + [r])])
  {
    var last := gs[|gs| - 1];
    var init := gs[..|gs| - 1];
    var gs' := init + [last.(members := last.members + [r])];
    forall g | 0 <= g < |gs'|
      ensures gs'[g].members != []
      ensures forall k :: 0 <= k < |gs'[g].members| ==> SameKey(gs'[g], gs'[g].members[k])
    {
      if g < |init| {
        assert gs'[g] == gs[g];
      }
    }
    forall g, h | 0 <= g < h < |gs'| && h == g + 1
      ensures KeyOf(gs'[g]) != KeyOf(gs'[h])
    {
      assert gs'[g] == gs[g];
      assert KeyOf(gs'[h]) == KeyOf(gs[h]);
    }
  }

  /** A recommendation with another key starts a new group. */
  lemma StartGroup(gs: seq<Group>, r: Recommendation)
    requires WellGrouped(gs) && (gs == [] || !SameKey(gs[|gs| - 1], r))
    ensures WellGrouped(gs + [Group(r.business, r.userName, [r])])
  {
    var single := Group(r.business, r.userName, [r]);
    var gs' := gs + [single];
    forall g | 0 <= g < |gs'|
      ensures gs'[g].members != []
      ensures forall k :: 0 <= k < |gs'[g].members| ==> SameKey(gs'[g], gs'[g].members[k])
    {
      if g < |gs| {
        assert gs'[g] == gs[g];
      }
    }
    forall g, h | 0 <= g < h < |gs'| && h == g + 1
      ensures KeyOf(gs'[g]) != KeyOf(gs'[h])
    {
      if h < |gs| {
        assert gs'[g] == gs[g] && gs'[h] == gs[h];
      } else {
        assert gs'[g] == gs[|gs| - 1] && gs'[h] == single;
      }
    }
  }

  /** One grouping step appends the recommendation to the groups' members. */
  lemma GroupedMembers(gs: seq<Group>, r: Recommendation)
    ensures Members(Grouped(gs, r)) == Members(gs) + [r]
  {
    if gs != [] && SameKey(gs[|gs| - 1], r) {
      var last := gs[|gs| - 1];
      var init := gs[..|gs| - 1];
      assert gs == init + [last];
      MembersSnoc(init, last);
      MembersSnoc(init, last.(members := last.members + [r]));
    } else {
      MembersSnoc(gs, Group(r.business, r.userName, [r]));
    }
  }

  /** One grouping step keeps the groups well formed. */
  lemma GroupedKeeps(gs: seq<Group>, r: Recommendation)
    requires WellGrouped(gs)
    ensures WellGrouped(Grouped(gs, r))
  {
    if gs != [] && SameKey(gs[|gs| - 1], r) {
      JoinLastGroup(gs, r);
    } else {
      StartGroup(gs, r);
    }
  }

  /** Reading the groups' members in order gives back the recommendations. */
  lemma {:induction false} GroupByMembers(recs: seq<Recommendation>)
    ensures Members(GroupBy(recs)) == recs
    decreases |recs|
  {
    if recs != [] {
      var front, r := recs[..|recs| - 1], recs[|recs| - 1];
      assert recs == front + [r];
      GroupByMembers(front);
      GroupedMembers(GroupBy(front), r);
    }
  }

  /** The groups are non-empty runs of one key, neighbouring runs differing
      in key. */
  lemma {:induction false} GroupByWellGrouped(recs: seq<Recommendation>)
    ensures WellGrouped(GroupBy(recs))
    decreases |recs|
  {
    if recs != [] {
      GroupByWellGrouped(recs[..|recs| - 1]);
      GroupedKeeps(GroupBy(recs[..|recs| - 1]), recs[|recs| - 1]);
    }
  }

  /** The first non-empty custom icon URL among the items. */
  function FirstIcon(items: seq<Item>): (r: Option<string>)
    ensures r.Some? ==> r.value != [] && exists k :: 0 <= k < |items| && items[k].customIcon == r
    ensures r.None? ==> forall k :: 0 <= k < |items| ==> items[k].customIcon.None? || items[k].customIcon.value == []
    decreases |items|
  {
    if items == [] then None
    else if items[0].customIcon.Some? && items[0].customIcon.value != [] then items[0].customIcon
    else
      var r := FirstIcon(items[1..]);
      assert forall k :: 1 <= k < |items| ==> items[k] == items[1..][k - 1];
      r
  }

  /** The icon chosen is that of the first item with one. */
  lemma {:induction false} FirstIconIsFirst(items: seq<Item>, k: nat)
    requires k < |items| && items[k].customIcon.Some? && items[k].customIcon.value != []
    ensures FirstIcon(items).Some?
    ensures (forall j :: 0 <= j < k ==> items[j].customIcon.None? || items[j].customIcon.value == []) ==>
      FirstIcon(items) == items[k].customIcon
    decreases k
  {
    if k > 0 && !(items[0].customIcon.Some? && items[0].customIcon.value != []) {
      FirstIconIsFirst(items[1..], k - 1);
      assert forall j :: 0 <= j < k - 1 ==> items[1..][j] == items[j + 1];
    }
  }

  /** The card of one group. */
  function CardOf(g: Group): (c: Card)
    ensures |c.items| == |g.members|
    ensures forall k :: 0 <= k < |g.members| ==> c.items[k] == ItemOf(g.members[k])
    ensures c.business != [] && (g.business != [] ==> c.business == g.business)
    ensures g.business == [] ==> c.business == Dash
    ensures c.userName == g.userName
    ensures c.logoUrl == FirstIcon(c.items)
  {
    Card(OrDash(g.business), g.userName, FirstIcon(seq(|g.members|, k requires 0 <= k < |g.members| => ItemOf(g.members[k]))),
         seq(|g.members|, k requires 0 <= k < |g.members| => ItemOf(g.members[k])))
  }

  /** `get_recommendations_list`: one card per group, in order. `read` is the
      query of active recommendations in (business, user name, display order,
      id) order; when the query raises, the list is empty. */
  method Recommendations(read: Outcome<seq<Recommendation>>) returns (cards: seq<Card>)
    ensures read.Failed? ==> cards == []
    ensures read.Got? ==> var gs := GroupBy(read.value);
      |cards| == |gs| && forall k :: 0 <= k < |gs| ==> cards[k] == CardOf(gs[k])
  {
    if read.Failed? {
      return [];
    }
    var recs := read.value;
    var groups := GroupBy(recs);
    GroupByWellGrouped(recs);
    cards := [];
    var i := 0;
    while i < |groups|
      invariant 0 <= i <= |groups|
      invariant |cards| == i && forall k :: 0 <= k < i ==> cards[k] == CardOf(groups[k])
    {
      var card := CardOf(groups[i]);
      if card.items != [] {
        cards := cards + [card];
      }
      i := i + 1;
    }
  }

  /** Reading the cards' items in order gives one item per recommendation, in
      the query's order. */
  function CardItems(cards: seq<Card>): seq<Item>
    decreases |cards|
  {
    if cards == [] then [] else CardItems(cards[..|cards| - 1]) + cards[|cards| - 1].items
  }

  lemma {:induction false} CardItemsOfGroups(gs: seq<Group>)
    ensures var items := CardItems(seq(|gs|, k requires 0 <= k < |gs| => CardOf(gs[k])));
      var ms := Members(gs);
      |items| == |ms| && forall k :: 0 <= k < |ms| ==> items[k] == ItemOf(ms[k])
    decreases |gs|
  {
    if gs != [] {
      var cs := seq(|gs|, k requires 0 <= k < |gs| => CardOf(gs[k]));
      var front := gs[..|gs| - 1];
      CardItemsOfGroups(front);
      assert cs[..|cs| - 1] == seq(|front|, k requires 0 <= k < |front| => CardOf(front[k]));
    }
  }

  /** The cards show every recommendation once, in order, and no card is
      empty. */
  lemma CardsCoverRecommendations(recs: seq<Recommendation>)
    ensures var gs := GroupBy(recs);
      var cards := seq(|gs|, k requires 0 <= k < |gs| => CardOf(gs[k]));
      && |CardItems(cards)| == |recs|
      && (forall k :: 0 <= k < |recs| ==> CardItems(cards)[k] == ItemOf(recs[k]))
      && (forall c :: 0 <= c < |cards| ==> cards[c].items != [])
  {
    GroupByMembers(recs);
    GroupByWellGrouped(recs);
    CardItemsOfGroups(GroupBy(recs));
  }
}
