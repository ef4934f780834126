/**
 * The dashboard's template filters (`get_item`, `trim`, `strip_spaces`,
 * `normalize`) and the `render_chart` tag's choice of datasets: the sub-table
 * of the current tab whose id or title matches the tag's argument, else the
 * tab's own chart datasets filtered by `related_table`, and nothing rendered
 * when no dataset is left.
 */
module Tags {
  import opened Text
  import opened Cells
  import opened Rows

  // ---------------------------------------------------------------------
  // Template values and the filters

  /** A value a template hands to a filter: Python `None`, a string, an
      integer, or any other value without a `strip` method (bytes are not
      modelled), given by what `str()` prints for it, whether it is empty
      (falsy) and the name of its type. */
  datatype Value = Null | Str(s: string) | Int(i: int) | Other(text: string, empty: bool, typeName: string)

  /** `str(v)`. */
  function Show(v: Value): string
  {
    match v
    case Null => "None"
    case Str(s) => s
    case Int(i) => if i < 0 then "-" + Decimal(-i) else Decimal(i)
    case Other(text, _, _) => text
  }

  /** `type(v).__name__`. */
  function TypeName(v: Value): string
  {
    match v
    case Null => "NoneType"
    case Str(_) => "str"
    case Int(_) => "int"
    case Other(_, _, name) => name
  }

  /** The `AttributeError` text Python gives for `v.strip()` on a non-string. */
  function NoStrip(v: Value): string
  {
    "'" + TypeName(v) + NoStripTail
  }

  const NoStripTail := "' object has no attribute 'strip'"

  /** Python's `not v`. */
  predicate Falsy(v: Value)
  {
    match v
    case Null => true
    case Str(s) => s == []
    case Int(i) => i == 0
    case Other(_, empty, _) => empty
  }

  /** Text that, trimmed and lower-cased, spells a missing value: "nan",
      "nat", "none" or "<nat>". */
  predicate NullText(t: string)
  {
    var n := Lower(Strip(t));
    n == "nan" || n == "nat" || n == "none" || n == "<nat>"
  }

  /** `None`, or a value whose text (what `str()` prints) is a null marker. */
  predicate Masked(v: Value)
  {
    match v
    case Null => true
    case Str(s) => NullText(s)
    case Int(i) => NullText(Show(v))
    case Other(text, _, _) => NullText(text)
  }

  /** The `get_item` filter: the stored value, or "" for a non-dict, a
      missing key or a masked value; what it returns is never masked. */
  function GetItem(d: Option<map<string, Value>>, key: string): (r: Value)
    ensures !Masked(r)
    ensures d.None? || key !in d.value ==> r == Str("")
    ensures d.Some? && key in d.value && Masked(d.value[key]) ==> r == Str("")
    ensures d.Some? && key in d.value && !Masked(d.value[key]) ==> r == d.value[key]
  {
    if d.None? || key !in d.value then BlankNotMasked(); Str("")
    else if Masked(d.value[key]) then BlankNotMasked(); Str("")
    else d.value[key]
  }

  /** The blank string is not a null marker. */
  lemma BlankNotMasked()
    ensures !Masked(Str(""))
  {
    assert Strip("") == [];
  }

  /** The `trim` filter: strings are stripped, anything else is returned as is. */
  function Trim(v: Value): (r: Value)
    ensures r.Str? <==> v.Str?
    ensures v.Str? ==> r.s == Strip(v.s) && |r.s| <= |v.s|
    ensures !v.Str? ==> r == v
  {
    if v.Str? then Str(Strip(v.s)) else v
  }

  /** Trimming a trimmed value changes nothing. */
  lemma TrimIdempotent(v: Value)
    ensures Trim(Trim(v)) == Trim(v)
  {
    if v.Str? {
      StripIdempotent(v.s);
    }
  }

  /** The `strip_spaces` filter: "" for `None`, else the stripped text. */
  function StripSpaces(v: Value): (r: string)
    ensures v.Null? ==> r == []
    ensures !v.Null? ==> r == Strip(Show(v))
    ensures r != [] ==> !IsSpace(r[0]) && !IsSpace(r[|r| - 1])
  {
    if v.Null? then "" else Strip(Show(v))
  }

  /** Applying `strip_spaces` to its own result changes nothing. */
  lemma StripSpacesIdempotent(v: Value)
    ensures StripSpaces(Str(StripSpaces(v))) == StripSpaces(v)
  {
    if !v.Null? {
      StripIdempotent(Show(v));
    }
  }

  /** The `normalize` filter: "" for a falsy value, the stripped lower-case
      text of a string, and an error (no `strip` method) for anything else. */
  function Normalize(v: Value): (r: Outcome<string>)
    ensures Falsy(v) ==> r == Got("")
    ensures !Falsy(v) && v.Str? ==> r == Got(Lower(Strip(v.s)))
    ensures r.Failed? <==> !Falsy(v) && !v.Str?
    ensures r.Failed? ==> r.reason == NoStrip(v)
  {
    if Falsy(v) then Got("")
    else if v.Str? then Got(Lower(Strip(v.s)))
    else Failed(NoStrip(v))
  }

  /** A non-zero integer fails with the message that names its type, not its value. */
  lemma NormalizeIntNamesType(i: int)
    requires i != 0
    ensures Normalize(Int(i)) == Failed("'int" + NoStripTail)
  {
    var v := Int(i);
    assert Normalize(v) == Failed(NoStrip(v));
    assert "'" + TypeName(v) == "'int";
  }

  /** Lower-casing keeps white space white space and everything else not. */
  lemma LowerCharSpace(c: char)
    ensures IsSpace(LowerChar(c)) <==> IsSpace(c)
  {
  }

  /** Normalizing a normalized string changes nothing. */
  lemma NormalizeIdempotent(s: string)
    ensures Normalize(Str(Normalize(Str(s)).value)) == Normalize(Str(s))
  {
    if s != [] {
      var t := Strip(s);
      LowerKeepsStripped(t);
      LowerIdempotent(t);
    }
  }

  /** Lower-casing text with no white space at its ends leaves none there. */
  lemma LowerKeepsStripped(t: string)
    requires t != [] ==> !IsSpace(t[0]) && !IsSpace(t[|t| - 1])
    ensures Strip(Lower(t)) == Lower(t)
  {
    if t != [] {
      LowerCharSpace(t[0]);
      LowerCharSpace(t[|t| - 1]);
    }
    StripUnchanged(Lower(t));
  }

  // ---------------------------------------------------------------------
  // Name matching

  /** `normalize_name`: em and en dashes become "-", each non-overlapping
      double space becomes one, and the result is stripped. */
  function NormName(s: string): string
  {
    Strip(Replace(Replace(Replace(s, "\U{2014}", "-"), "\U{2013}", "-"), "  ", " "))
  }

  /** `normalize_for_comparison`: `normalize_name` followed by lower-casing. */
  function NormLower(s: string): string
  {
    Lower(NormName(s))
  }

  /** A replacement introduces no character that neither the text nor the
      replacement holds. */
  lemma {:induction false} ReplaceKeepsAbsent(s: string, pat: string, rep: string, c: char)
    requires pat != [] && c !in s && c !in rep
    ensures c !in Replace(s, pat, rep)
    decreases |s|
  {
    if |s| >= |pat| {
      if s[..|pat|] == pat {
        assert forall k :: 0 <= k < |s| - |pat| ==> s[|pat|..][k] == s[k + |pat|];
        ReplaceKeepsAbsent(s[|pat|..], pat, rep, c);
      } else {
        assert forall k :: 0 <= k < |s| - 1 ==> s[1..][k] == s[k + 1];
        ReplaceKeepsAbsent(s[1..], pat, rep, c);
      }
    }
  }

  /** Stripping removes characters and adds none. */
  lemma StripKeepsAbsent(s: string, c: char)
    requires c !in s
    ensures c !in Strip(s)
  {
    var l := TrimLeft(s);
    assert l == s[|s| - |l|..];
    assert Strip(s) == l[..|Strip(s)|];
  }

  /** A normalised name holds no em or en dash, so titles that differ only in
      the kind of dash match. */
  lemma NormNameDashFree(s: string)
    ensures '\U{2014}' !in NormName(s) && '\U{2013}' !in NormName(s)
  {
    var a := Replace(s, "\U{2014}", "-");
    ReplaceCharGone(s, '\U{2014}', '-');
    var b := Replace(a, "\U{2013}", "-");
    ReplaceKeepsAbsent(a, "\U{2013}", "-", '\U{2014}');
    ReplaceCharGone(a, '\U{2013}', '-');
    var c := Replace(b, "  ", " ");
    ReplaceKeepsAbsent(b, "  ", " ", '\U{2014}');
    ReplaceKeepsAbsent(b, "  ", " ", '\U{2013}');
    StripKeepsAbsent(c, '\U{2014}');
    StripKeepsAbsent(c, '\U{2013}');
  }

  // ---------------------------------------------------------------------
  // The tab in the template context

  /** A chart dataset; only `str()` of its `related_table` entry ("" when
      absent) takes part in the choice. */
  datatype Dataset = Dataset(name: string, relatedTable: string)

  /** An entry of a tab's `sub_tables` list: a dict with its `id`
      (`Str("")` when absent), what `str()` prints for its `title` ("" when
      absent) and its `chart_data` when that is a list; or something that is
      not a dict. */
  datatype SubTable = NotDict | SubTable(id: Value, title: string, chartData: Option<seq<Dataset>>)

  /** The tab dict: its `sub_tables` and `chart_data` when they are lists,
      and what `str()` prints for its `name` ("" when absent). */
  datatype Tab = Tab(subTables: Option<seq<SubTable>>, chartData: Option<seq<Dataset>>, name: string)

  /** The tag's argument as it is compared: trimmed and lower-cased. The
      argument is given as the text `str()` prints for it, the only form in
      which the tag uses it. */
  function KeyText(arg: string): string
  {
    Lower(Strip(arg))
  }

  predicate IdMatches(st: SubTable, k: string)
    requires st.SubTable?
  {
    match st.id
    case Null => false
    case Str(s) => s != [] && Lower(Strip(s)) == k
    case Int(i) => i != 0 && Lower(Strip(Show(st.id))) == k
    case Other(text, empty, _) => !empty && Lower(Strip(text)) == k
  }

  predicate TitleMatches(st: SubTable, k: string)
    requires st.SubTable?
  {
    var t := Lower(Strip(st.title));
    t == k || NormName(t) == NormName(k)
  }

  predicate HasData(st: SubTable)
    requires st.SubTable?
  {
    st.chartData.Some? && st.chartData.value != []
  }

  /** A sub-table whose datasets the tag takes: a dict matching by id or by
      title, with a non-empty `chart_data` list. */
  predicate Usable(st: SubTable, k: string)
  {
    st.SubTable? && (IdMatches(st, k) || TitleMatches(st, k)) && HasData(st)
  }

  /** The datasets of the first usable sub-table, if any. */
  function Search(subs: seq<SubTable>, k: string): (r: Option<seq<Dataset>>)
    ensures r.Some? ==> r.value != []
    ensures r.None? <==> forall i :: 0 <= i < |subs| ==> !Usable(subs[i], k)
    decreases |subs|
  {
    if subs == [] then None
    else if Usable(subs[0], k) then Some(subs[0].chartData.value)
    else
      var r := Search(subs[1..], k);
      assert forall i :: 1 <= i < |subs| ==> subs[i] == subs[1..][i - 1];
      r
  }

  /** The search takes the datasets of the first usable sub-table, whether it
      matches by id or by title. */
  lemma {:induction false} SearchFindsFirst(subs: seq<SubTable>, k: string, i: nat)
    requires i < |subs| && Usable(subs[i], k)
    requires forall j :: 0 <= j < i ==> !Usable(subs[j], k)
    ensures Search(subs, k) == Some(subs[i].chartData.value)
    decreases i
  {
    if i > 0 {
      assert forall j :: 0 <= j < i - 1 ==> subs[1..][j] == subs[j + 1];
      SearchFindsFirst(subs[1..], k, i - 1);
    }
  }

  /** A matching sub-table without datasets does not end the search. */
  lemma MatchWithoutDataSkipped(st: SubTable, subs: seq<SubTable>, k: string)
    requires st.SubTable? && (IdMatches(st, k) || TitleMatches(st, k)) && !HasData(st)
    ensures Search([st] + subs, k) == Search(subs, k)
  {
    assert ([st] + subs)[1..] == subs;
  }

  /** `related_table` equals, contains or is contained in the key. */
  predicate RelatedTo(d: Dataset, k: string)
  {
    var rt := Lower(Strip(d.relatedTable));
    rt != [] && (rt == k || Contains(rt, k) || Contains(k, rt))
  }

  /** The datasets `keep` accepts, in order. */
  function Filter(data: seq<Dataset>, keep: Dataset -> bool): (r: seq<Dataset>)
    ensures |r| <= |data|
    ensures forall j :: 0 <= j < |r| ==> keep(r[j]) && r[j] in data
    ensures forall j :: 0 <= j < |data| && keep(data[j]) ==> data[j] in r
    decreases |data|
  {
    if data == [] then []
    else
      var front := Filter(data[..|data| - 1], keep);
      assert forall j :: 0 <= j < |data| - 1 ==> data[j] == data[..|data| - 1][j];
      if keep(data[|data| - 1]) then front + [data[|data| - 1]] else front
  }

  /** Filtering keeps the datasets' order: filtering two lists one after the
      other is filtering their concatenation. */
  lemma {:induction false} FilterSplit(a: seq<Dataset>, b: seq<Dataset>, keep: Dataset -> bool)
    ensures Filter(a + b, keep) == Filter(a, keep) + Filter(b, keep)
    decreases |b|
  {
    if b != [] {
      var front := b[..|b| - 1];
      FilterSplit(a, front, keep);
      assert (a + b)[..|a + b| - 1] == a + front;
      assert (a + b)[|a + b| - 1] == b[|b| - 1];
    } else {
      assert a + b == a;
    }
  }

  /** The datasets related to the key, in order. */
  function Related(data: seq<Dataset>, k: string): (r: seq<Dataset>)
  {
    Filter(data, d => RelatedTo(d, k))
  }

  /** The loop collecting `filtered_tab_data`. */
  method FilterRelated(data: seq<Dataset>, k: string) returns (r: seq<Dataset>)
    ensures r == Related(data, k)
  {
    var keep := d => RelatedTo(d, k);
    r := [];
    var i := 0;
    while i < |data|
      invariant 0 <= i <= |data|
      invariant r == Filter(data[..i], keep)
    {
      assert data[..i + 1][..i] == data[..i];
      if keep(data[i]) {
        r := r + [data[i]];
      }
      i := i + 1;
    }
    assert data[..|data|] == data;
  }

  predicate PortName(s: string)
  {
    Contains(s, "seaport") || Contains(s, "airport")
  }

  /** The tab's normalised, lower-case name ("" for an empty name). */
  function TabNorm(t: Tab): string
  {
    var name := Lower(Strip(t.name));
    if name != [] then NormLower(name) else []
  }

  /** The search's fallback takes all of the tab's datasets: the tab's
      normalised name equals the key's, or both name a seaport or airport and
      the tab has more than two datasets. */
  predicate WholeTab(t: Tab, k: string)
    requires t.chartData.Some?
  {
    || (TabNorm(t) != [] && NormLower(k) == TabNorm(t))
    || (PortName(Lower(Strip(t.name))) && PortName(k) && |t.chartData.value| > 2)
  }

  /** The tag's own fallback takes all of the tab's datasets: the tab's
      normalised name equals the key's, or names a seaport or airport and
      contains the key's. */
  predicate WholeTabOuter(t: Tab, k: string)
  {
    || (TabNorm(t) != [] && NormLower(k) == TabNorm(t))
    || (PortName(TabNorm(t)) && Contains(TabNorm(t), NormLower(k)))
  }

  /** The tab fallback inside the search (no sub-table usable): all of the
      tab's datasets when its name matches the key, or when both name a
      seaport or airport and there are more than two datasets; otherwise the
      related datasets, or all of them when none is related. */
  function TabFallback(t: Tab, k: string): (r: seq<Dataset>)
    ensures t.chartData.None? || t.chartData.value == [] ==> r == []
    ensures t.chartData.Some? && t.chartData.value != [] ==> r != []
    ensures r != [] ==> r == t.chartData.value || r == Related(t.chartData.value, k)
    ensures t.chartData.Some? && WholeTab(t, k) ==> r == t.chartData.value
    ensures t.chartData.Some? && !WholeTab(t, k) && Related(t.chartData.value, k) != [] ==>
              r == Related(t.chartData.value, k)
    ensures t.chartData.Some? && !WholeTab(t, k) && Related(t.chartData.value, k) == [] ==> r == t.chartData.value
  {
    if t.chartData.None? || t.chartData.value == [] then []
    else
      var data := t.chartData.value;
      if WholeTab(t, k) then data
      else
        var related := Related(data, k);
        if related != [] then related else data
  }

  /** `collect_datasets_from_sub_table`: nothing without a tab or without a
      `sub_tables` list; else the first usable sub-table's datasets, or the
      tab fallback. */
  function Collected(tab: Option<Tab>, arg: string): seq<Dataset>
  {
    if tab.None? || tab.value.subTables.None? then []
    else
      match Search(tab.value.subTables.value, KeyText(arg))
      case Some(ds) => ds
      case None => TabFallback(tab.value, KeyText(arg))
  }

  /** The search loop, one sub-table at a time: its id, then its title. */
  method FindSubTable(subs: seq<SubTable>, k: string) returns (found: Option<seq<Dataset>>)
    ensures found == Search(subs, k)
  {
    var i := 0;
    while i < |subs|
      invariant 0 <= i <= |subs|
      invariant Search(subs, k) == Search(subs[i..], k)
    {
      assert subs[i..][1..] == subs[i + 1..];
      var st := subs[i];
      if st.SubTable? {
        if IdMatches(st, k) && HasData(st) {
          return Some(st.chartData.value);
        }
        if TitleMatches(st, k) && HasData(st) {
          return Some(st.chartData.value);
        }
      }
      i := i + 1;
    }
    return None;
  }

  /** The tab fallback inside the search. */
  method TabDatasets(t: Tab, k: string) returns (ds: seq<Dataset>)
    ensures ds == TabFallback(t, k)
  {
    if t.chartData.None? || t.chartData.value == [] {
      return [];
    }
    var data := t.chartData.value;
    if WholeTab(t, k) {
      return data;
    }
    ds := FilterRelated(data, k);
    if ds == [] {
      ds := data;
    }
  }

  /** `collect_datasets_from_sub_table`. */
  method CollectDatasets(tab: Option<Tab>, arg: string) returns (ds: seq<Dataset>)
    ensures ds == Collected(tab, arg)
  {
    if tab.None? || tab.value.subTables.None? {
      return [];
    }
    var k := KeyText(arg);
    var found := FindSubTable(tab.value.subTables.value, k);
    if found.Some? {
      return found.value;
    }
    ds := TabDatasets(tab.value, k);
  }

  /** The tag's own fallback when the search found nothing: all of the tab's
      datasets when its normalised name matches the key, or names a seaport
      or airport and contains the key; otherwise the related datasets, or all
      of them when none is related. */
  function OuterFallback(t: Tab, k: string): (r: seq<Dataset>)
    ensures t.chartData.None? || t.chartData.value == [] ==> r == []
    ensures t.chartData.Some? && t.chartData.value != [] ==> r != []
    ensures r != [] ==> r == t.chartData.value || r == Related(t.chartData.value, k)
    ensures t.chartData.Some? && WholeTabOuter(t, k) ==> r == t.chartData.value
    ensures t.chartData.Some? && !WholeTabOuter(t, k) && Related(t.chartData.value, k) != [] ==>
              r == Related(t.chartData.value, k)
    ensures t.chartData.Some? && !WholeTabOuter(t, k) && Related(t.chartData.value, k) == [] ==> r == t.chartData.value
  {
    if t.chartData.None? || t.chartData.value == [] then []
    else
      var data := t.chartData.value;
      if WholeTabOuter(t, k) then data
      else
        var related := Related(data, k);
        if related != [] then related else data
  }

  method ChartFallback(t: Tab, k: string) returns (ds: seq<Dataset>)
    ensures ds == OuterFallback(t, k)
  {
    if t.chartData.None? || t.chartData.value == [] {
      return [];
    }
    var data := t.chartData.value;
    if WholeTabOuter(t, k) {
      return data;
    }
    ds := FilterRelated(data, k);
    if ds == [] {
      ds := data;
    }
  }

  /** The datasets the chart is drawn with: the search's, or the tag's own
      fallback when the search found none. */
  function FinalDatasets(tab: Option<Tab>, arg: string): seq<Dataset>
  {
    var ds := Collected(tab, arg);
    if ds != [] || tab.None? then ds else OuterFallback(tab.value, KeyText(arg))
  }

  /** When the tab has a `sub_tables` list the tag's own fallback never
      changes the search's answer: it only acts on a tab without one. */
  lemma OuterFallbackOnlyWithoutSubTables(tab: Option<Tab>, arg: string)
    requires tab.Some? && tab.value.subTables.Some?
    ensures FinalDatasets(tab, arg) == Collected(tab, arg)
  {
  }

  /** The dataset is one of the tab's own or one of a sub-table's. */
  predicate FromTab(t: Tab, d: Dataset)
  {
    || (t.chartData.Some? && d in t.chartData.value)
    || (t.subTables.Some? && exists i :: 0 <= i < |t.subTables.value| && InSubTable(t.subTables.value[i], d))
  }

  predicate InSubTable(st: SubTable, d: Dataset)
  {
    st.SubTable? && st.chartData.Some? && d in st.chartData.value
  }

  /** The datasets the search finds are those of one of the sub-tables. */
  lemma {:induction false} SearchSource(subs: seq<SubTable>, k: string) returns (i: nat)
    requires Search(subs, k).Some?
    ensures i < |subs| && subs[i].SubTable? && subs[i].chartData == Search(subs, k)
    decreases |subs|
  {
    if Usable(subs[0], k) {
      i := 0;
    } else {
      var j := SearchSource(subs[1..], k);
      i := j + 1;
    }
  }

  /** A chart is drawn whenever the tab has datasets of its own. */
  lemma DrawnWhenTabHasData(tab: Option<Tab>, arg: string)
    requires tab.Some? && tab.value.chartData.Some? && tab.value.chartData.value != []
    ensures FinalDatasets(tab, arg) != []
  {
  }

  /** Every dataset drawn is one of the tab's own or one of a sub-table's. */
  lemma DrawnFromTab(tab: Option<Tab>, arg: string)
    requires tab.Some?
    ensures forall d :: d in FinalDatasets(tab, arg) ==> FromTab(tab.value, d)
  {
    var t := tab.value;
    var k := KeyText(arg);
    var ds := FinalDatasets(tab, arg);
    if t.subTables.Some? && Search(t.subTables.value, k).Some? {
      var i := SearchSource(t.subTables.value, k);
      assert ds == t.subTables.value[i].chartData.value;
      forall d | d in ds
        ensures FromTab(t, d)
      {
        assert InSubTable(t.subTables.value[i], d);
      }
    } else if ds != [] {
      assert ds == TabFallback(t, k) || ds == OuterFallback(t, k);
      FallbackFromTab(t, k, ds);
    }
  }

  /** A fallback's datasets are the tab's own. */
  lemma FallbackFromTab(t: Tab, k: string, ds: seq<Dataset>)
    requires t.chartData.Some? && (ds == t.chartData.value || ds == Related(t.chartData.value, k))
    ensures forall d :: d in ds ==> FromTab(t, d)
  {
    var data := t.chartData.value;
    forall d | d in ds
      ensures FromTab(t, d)
    {
      var j :| 0 <= j < |ds| && ds[j] == d;
      assert d in data;
    }
  }

  // ---------------------------------------------------------------------
  // The chart context and the rendered result

  /** The `chart` dict of the template context, which the tag fills with
      defaults. */
  class ChartContext {
    var entries: map<string, string>

    constructor (entries: map<string, string>)
      ensures this.entries == entries
    {
      this.entries := entries;
    }

    /** `dict.setdefault`: sets the key only when it is absent. */
    method SetDefault(key: string, value: string)
      modifies this
      ensures entries == if key in old(entries) then old(entries) else old(entries)[key := value]
    {
      if key !in entries {
        entries := entries[key := value];
      }
    }
  }

  /** The chart dict after both defaults: every existing entry kept, a
      canvas id and a title present, nothing else added. */
  function WithDefaults(m: map<string, string>, canvasId: string, title: string): (r: map<string, string>)
    ensures forall key :: key in m ==> key in r && r[key] == m[key]
    ensures r.Keys == m.Keys + {"canvas_id", "title"}
    ensures "canvas_id" !in m ==> r["canvas_id"] == canvasId
    ensures "title" !in m ==> r["title"] == title
  {
    var withId := if "canvas_id" in m then m else m["canvas_id" := canvasId];
    if "title" in withId then withId else withId["title" := title]
  }

  /** What the tag produces: nothing when no dataset is left, else a chart
      over the datasets with its chart dict. */
  datatype Rendering = Skipped | Drawn(datasets: seq<Dataset>, chart: map<string, string>)

  /** A second call changes nothing: the canvas id and title the first call
      set are kept. */
  lemma WithDefaultsKeepsFirst(m: map<string, string>, canvasId: string, title: string,
                               laterId: string, laterTitle: string)
    ensures WithDefaults(WithDefaults(m, canvasId, title), laterId, laterTitle) == WithDefaults(m, canvasId, title)
    ensures WithDefaults(m, canvasId, title)["canvas_id"] == if "canvas_id" in m then m["canvas_id"] else canvasId
  {
    var r := WithDefaults(m, canvasId, title);
    assert "canvas_id" in r && "title" in r;
  }

  /** `render_chart`: choose the datasets, set the chart defaults (canvas id
      "chart-" followed by the slug of the argument, and the argument as
      title) and render nothing when no dataset is left. The slug is given,
      since slugify is a library call. `chart` is the template context's
      `chart` dict, or null when there is none or it is not a dict: the
      context is copied only shallowly, so the defaults are written into
      the caller's own dict, which a later call in the same template sees. */
  method RenderChart(tab: Option<Tab>, arg: string, chart: ChartContext?, slug: string)
    returns (out: Rendering)
    modifies chart
    ensures chart != null ==> chart.entries == WithDefaults(old(chart.entries), "chart-" + slug, arg)
    ensures FinalDatasets(tab, arg) == [] ==> out == Skipped
    ensures FinalDatasets(tab, arg) != [] ==>
      out == Drawn(FinalDatasets(tab, arg), WithDefaults(if chart != null then old(chart.entries) else map[], "chart-" + slug, arg))
  {
    var cid := "chart-" + slug;
    var datasets := CollectDatasets(tab, arg);
    if datasets == [] && tab.Some? {
      datasets := ChartFallback(tab.value, KeyText(arg));
    }
    var context: ChartContext;
    if chart != null {
      context := chart;
    } else {
      context := new ChartContext(map[]);
    }
    context.SetDefault("canvas_id", cid);
    context.SetDefault("title", arg);
    if datasets == [] {
      return Skipped;
    }
    out := Drawn(datasets, context.entries);
  }

}
