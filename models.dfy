/**
 * The dashboard's theme settings and display strings: the default colour
 * table and its categories, the "initialize defaults" upsert over the
 * `DashboardTheme` key/value table, and the `__str__` of a theme setting, a
 * phase section and a warehouse business system.
 */
module Models {
  import opened Text
  import opened Cells

  // ---------------------------------------------------------------------
  // Categories and the default table

  /** `THEME_CATEGORY_CHOICES`: (stored value, label). */
  const CategoryChoices: seq<(string, string)> := [
    ("tabs", "Tabs Colors"),
    ("table", "Data Table Colors"),
    ("phases", "Phases Section Colors"),
    ("cards", "Warehouse Cards Colors"),
    ("general", "General Colors")]

  /** The categories the default table uses. */
  datatype Category = Tabs | Table | Phases | Cards | General
  {
    /** The stored value of the category. */
    function Name(): (r: string)
      ensures exists k :: 0 <= k < |CategoryChoices| && CategoryChoices[k].0 == r
    {
      match this
      case Tabs => assert CategoryChoices[0].0 == "tabs"; "tabs"
      case Table => assert CategoryChoices[1].0 == "table"; "table"
      case Phases => assert CategoryChoices[2].0 == "phases"; "phases"
      case Cards => assert CategoryChoices[3].0 == "cards"; "cards"
      case General => assert CategoryChoices[4].0 == "general"; "general"
    }
  }

  /** One default colour: key, value, description, category. */
  datatype Default = Default(key: string, value: string, description: string, category: string)

  const DefaultCount := 49

  /*
   * `DEFAULT_THEME_COLORS`, stored by column: row `i` of the table is
   * (KeyAt(i), ValueAt(i), DescriptionAt(i), CategoryAt(i)).
   */

  function KeyAt(i: nat): string
    requires i < DefaultCount
  {
    match i
    case 0 => "tab_active_bg"
    case 1 => "tab_active_text"
    case 2 => "tab_inactive_bg"
    case 3 => "tab_inactive_text"
    case 4 => "tab_border_color"
    case 5 => "tab_hover_bg"
    case 6 => "table_header_bg"
    case 7 => "table_header_bg_end"
    case 8 => "table_header_text"
    case 9 => "table_row_hover"
    case 10 => "table_border"
    case 11 => "table_emp_no_color"
    case 12 => "table_business_badge_bg"
    case 13 => "table_business_badge_text"
    case 14 => "table_business2_badge_bg"
    case 15 => "table_business2_badge_text"
    case 16 => "table_title_icon_bg"
    case 17 => "table_title_icon_bg_end"
    case 18 => "table_stat_badge_bg"
    case 19 => "table_stat_badge_text"
    case 20 => "phase_icon_bg"
    case 21 => "phase_icon_bg_end"
    case 22 => "phase_icon_text"
    case 23 => "phase_card_bg"
    case 24 => "phase_card_border"
    case 25 => "phase_count_badge_bg"
    case 26 => "phase_count_badge_text"
    case 27 => "phase_bullet_color"
    case 28 => "phase_point_bg"
    case 29 => "card_bg"
    case 30 => "card_border"
    case 31 => "card_header_bg"
    case 32 => "card_table_header_bg"
    case 33 => "status_active_color"
    case 34 => "status_pending_color"
    case 35 => "status_completed_color"
    case 36 => "donut_chart_color"
    case 37 => "donut_chart_pending"
    case 38 => "progress_bar_color"
    case 39 => "primary_color"
    case 40 => "secondary_color"
    case 41 => "success_color"
    case 42 => "warning_color"
    case 43 => "danger_color"
    case 44 => "text_primary"
    case 45 => "text_secondary"
    case 46 => "text_muted"
    case 47 => "bg_light"
    case 48 => "border_color"
  }

  function ValueAt(i: nat): string
    requires i < DefaultCount
  {
    match i
    case 0 => "#1a5f2a"
    case 1 => "#ffffff"
    case 2 => "#ffffff"
    case 3 => "#1a5f2a"
    case 4 => "#1a5f2a"
    case 5 => "#d1fae5"
    case 6 => "#1a5f2a"
    case 7 => "#15803d"
    case 8 => "#ffffff"
    case 9 => "#f1f5f9"
    case 10 => "#e2e8f0"
    case 11 => "#0d9488"
    case 12 => "#ccfbf1"
    case 13 => "#0d9488"
    case 14 => "#d1fae5"
    case 15 => "#15803d"
    case 16 => "#0d9488"
    case 17 => "#14b8a6"
    case 18 => "#d1fae5"
    case 19 => "#15803d"
    case 20 => "#0d9488"
    case 21 => "#14b8a6"
    case 22 => "#ffffff"
    case 23 => "#ffffff"
    case 24 => "#e2e8f0"
    case 25 => "#ccfbf1"
    case 26 => "#0d9488"
    case 27 => "#0d9488"
    case 28 => "#f1f5f9"
    case 29 => "#ffffff"
    case 30 => "#e2e8f0"
    case 31 => "#f8fafc"
    case 32 => "#1a5f2a"
    case 33 => "#15803d"
    case 34 => "#0d9488"
    case 35 => "#15803d"
    case 36 => "#1a5f2a"
    case 37 => "#0d9488"
    case 38 => "#1a5f2a"
    case 39 => "#1a5f2a"
    case 40 => "#0d9488"
    case 41 => "#15803d"
    case 42 => "#0d9488"
    case 43 => "#dc2626"
    case 44 => "#1e293b"
    case 45 => "#475569"
    case 46 => "#64748b"
    case 47 => "#f1f5f9"
    case 48 => "#e2e8f0"
  }

  function DescriptionAt(i: nat): string
    requires i < DefaultCount
  {
    match i
    case 0 => "Active tab background color"
    case 1 => "Active tab text color"
    case 2 => "Inactive tab background color"
    case 3 => "Inactive tab text color"
    case 4 => "Tab border color"
    case 5 => "Tab hover background color (Mint)"
    case 6 => "Table header background (gradient start)"
    case 7 => "Table header background (gradient end)"
    case 8 => "Table header text color"
    case 9 => "Table row hover background"
    case 10 => "Table border color"
    case 11 => "Employee number text color (Teal)"
    case 12 => "Business badge background (Light Teal)"
    case 13 => "Business badge text color (Teal)"
    case 14 => "Business 2 badge background (Mint)"
    case 15 => "Business 2 badge text color (Forest Green)"
    case 16 => "Table title icon background (gradient start - Teal)"
    case 17 => "Table title icon background (gradient end - Teal Light)"
    case 18 => "Stats badge background (Mint)"
    case 19 => "Stats badge text color (Forest Green)"
    case 20 => "Phase icon background (gradient start - Teal)"
    case 21 => "Phase icon background (gradient end - Teal Light)"
    case 22 => "Phase icon text color"
    case 23 => "Phase card background"
    case 24 => "Phase card border color"
    case 25 => "Phase count badge background (Light Teal)"
    case 26 => "Phase count badge text color (Teal)"
    case 27 => "Phase bullet point color (Teal)"
    case 28 => "Phase point background"
    case 29 => "Warehouse card background"
    case 30 => "Warehouse card border"
    case 31 => "Card header background"
    case 32 => "Card table header background (Emerald)"
    case 33 => "Active status color (Forest Green)"
    case 34 => "Pending status color (Teal)"
    case 35 => "Completed status color (Forest Green)"
    case 36 => "Donut chart main color (Emerald)"
    case 37 => "Donut chart pending color (Teal)"
    case 38 => "Progress bar fill color (Emerald)"
    case 39 => "Primary brand color (Emerald)"
    case 40 => "Secondary accent color (Teal)"
    case 41 => "Success color (Forest Green)"
    case 42 => "Warning/Pending color (Teal)"
    case 43 => "Danger color (Red)"
    case 44 => "Primary text color"
    case 45 => "Secondary text color"
    case 46 => "Muted text color"
    case 47 => "Light background color"
    case 48 => "Default border color"
  }

  function CategoryAt(i: nat): Category
    requires i < DefaultCount
  {
    match i
    case 0 => Tabs
    case 1 => Tabs
    case 2 => Tabs
    case 3 => Tabs
    case 4 => Tabs
    case 5 => Tabs
    case 6 => Table
    case 7 => Table
    case 8 => Table
    case 9 => Table
    case 10 => Table
    case 11 => Table
    case 12 => Table
    case 13 => Table
    case 14 => Table
    case 15 => Table
    case 16 => Table
    case 17 => Table
    case 18 => Table
    case 19 => Table
    case 20 => Phases
    case 21 => Phases
    case 22 => Phases
    case 23 => Phases
    case 24 => Phases
    case 25 => Phases
    case 26 => Phases
    case 27 => Phases
    case 28 => Phases
    case 29 => Cards
    case 30 => Cards
    case 31 => Cards
    case 32 => Cards
    case 33 => Cards
    case 34 => Cards
    case 35 => Cards
    case 36 => Cards
    case 37 => Cards
    case 38 => Cards
    case 39 => General
    case 40 => General
    case 41 => General
    case 42 => General
    case 43 => General
    case 44 => General
    case 45 => General
    case 46 => General
    case 47 => General
    case 48 => General
  }

  /** `DEFAULT_THEME_COLORS` as a table of rows. */
  const Defaults: seq<Default> :=
    seq(DefaultCount, i requires 0 <= i < DefaultCount => Default(KeyAt(i), ValueAt(i), DescriptionAt(i), CategoryAt(i).Name()))

  /** No key appears twice. */
  predicate DistinctKeys(ds: seq<Default>)
  {
    forall i, j :: 0 <= i < j < |ds| ==> ds[i].key != ds[j].key
  }

  /** Whether a string is one of the category choices. */
  predicate IsCategory(c: string)
  {
    exists k :: 0 <= k < |CategoryChoices| && CategoryChoices[k].0 == c
  }

  /* Pairwise distinctness of the key column, in blocks of the later index. */

  lemma KeysDistinctBelow22(i: nat, j: nat)
    requires i < j < 22
    ensures KeyAt(i) != KeyAt(j)
  {
  }

  lemma KeysDistinct22To33(i: nat, j: nat)
    requires i < j < 33 && 22 <= j
    ensures KeyAt(i) != KeyAt(j)
  {
  }

  lemma KeysDistinct33To41(i: nat, j: nat)
    requires i < j < 41 && 33 <= j
    ensures KeyAt(i) != KeyAt(j)
  {
  }

  lemma KeysDistinct41To43(i: nat, j: nat)
    requires i < j < 43 && 41 <= j
    ensures KeyAt(i) != KeyAt(j)
  {
  }

  lemma KeysDistinct43To45(i: nat, j: nat)
    requires i < j < 45 && 43 <= j
    ensures KeyAt(i) != KeyAt(j)
  {
  }

  lemma KeysDistinctFrom45(i: nat, j: nat)
    requires i < j < DefaultCount && 45 <= j
    ensures KeyAt(i) != KeyAt(j)
  {
  }

  lemma ValuesNonEmpty(i: nat)
    requires i < DefaultCount
    ensures ValueAt(i) != []
  {
  }

  /** The default table has 49 rows with pairwise distinct keys (as the
      unique key column requires), non-empty values and categories from the
      choices. */
  lemma DefaultsShape()
    ensures |Defaults| == 49 && DistinctKeys(Defaults)
    ensures forall i :: 0 <= i < |Defaults| ==> Defaults[i].value != [] && IsCategory(Defaults[i].category)
  {
    forall i, j | 0 <= i < j < |Defaults|
      ensures Defaults[i].key != Defaults[j].key
    {
      if j < 22 {
        KeysDistinctBelow22(i, j);
      } else if j < 33 {
        KeysDistinct22To33(i, j);
      } else if j < 41 {
        KeysDistinct33To41(i, j);
      } else if j < 43 {
        KeysDistinct41To43(i, j);
      } else if j < 45 {
        KeysDistinct43To45(i, j);
      } else {
        KeysDistinctFrom45(i, j);
      }
    }
    forall i | 0 <= i < |Defaults|
      ensures Defaults[i].value != [] && IsCategory(Defaults[i].category)
    {
      ValuesNonEmpty(i);
    }
  }

  // ---------------------------------------------------------------------
  // The theme table and `initialize_defaults`

  /** What a `DashboardTheme` row holds besides its key. */
  datatype Setting = Setting(value: string, description: string, category: string)

  function SettingOf(d: Default): Setting
  {
    Setting(d.value, d.description, d.category)
  }

  /** The keys of a default table. */
  function Keys(ds: seq<Default>): (r: set<string>)
    ensures forall i :: 0 <= i < |ds| ==> ds[i].key in r
    ensures forall k :: k in r ==> exists i :: 0 <= i < |ds| && ds[i].key == k
    decreases |ds|
  {
    if ds == [] then {} else Keys(ds[..|ds| - 1]) + {ds[|ds| - 1].key}
  }

  /** The table and the two counters after an upsert. */
  datatype Upserted = Upserted(rows: map<string, Setting>, created: nat, updated: nat)

  /** One pass of the loop: `get_or_create` (insert when the key is absent),
      or with `resetAll` `update_or_create` (insert or overwrite). */
  function UpsertOne(u: Upserted, d: Default, resetAll: bool): Upserted
  {
    if d.key !in u.rows then Upserted(u.rows[d.key := SettingOf(d)], u.created + 1, u.updated)
    else if resetAll then Upserted(u.rows[d.key := SettingOf(d)], u.created, u.updated + 1)
    else u
  }

  /** The loop over a default table, from zero counters. */
  function UpsertAll(rows: map<string, Setting>, ds: seq<Default>, resetAll: bool): Upserted
    decreases |ds|
  {
    if ds == [] then Upserted(rows, 0, 0)
    else UpsertOne(UpsertAll(rows, ds[..|ds| - 1], resetAll), ds[|ds| - 1], resetAll)
  }

  /** The `DashboardTheme` table, keyed by its unique key. */
  class ThemeTable {
    var rows: map<string, Setting>

    constructor (rows: map<string, Setting>)
      ensures this.rows == rows
    {
      this.rows := rows;
    }

    /** `get_or_create(key=..., defaults=...)`: whether a row was created. */
    method GetOrCreate(key: string, s: Setting) returns (created: bool)
      modifies this
      ensures created <==> key !in old(rows)
      ensures rows == if created then old(rows)[key := s] else old(rows)
    {
      created := key !in rows;
      if created {
        rows := rows[key := s];
      }
    }

    /** `update_or_create(key=..., defaults=...)`: whether a row was created;
        either way the key then holds `s`. */
    method UpdateOrCreate(key: string, s: Setting) returns (created: bool)
      modifies this
      ensures created <==> key !in old(rows)
      ensures rows == old(rows)[key := s]
    {
      created := key !in rows;
      rows := rows[key := s];
    }

    /** The loop of `initialize_defaults` over a default table `ds`. */
    method UpsertDefaults(ds: seq<Default>, resetAll: bool) returns (created: nat, updated: nat)
      modifies this
      ensures Upserted(rows, created, updated) == UpsertAll(old(rows), ds, resetAll)
    {
      created, updated := 0, 0;
      var i := 0;
      while i < |ds|
        invariant 0 <= i <= |ds|
        invariant Upserted(rows, created, updated) == UpsertAll(old(rows), ds[..i], resetAll)
      {
        var d := ds[i];
        assert ds[..i + 1][..i] == ds[..i];
        var made: bool;
        if resetAll {
          made := UpdateOrCreate(d.key, SettingOf(d));
          if made {
            created := created + 1;
          } else {
            updated := updated + 1;
          }
        } else {
          made := GetOrCreate(d.key, SettingOf(d));
          if made {
            created := created + 1;
          }
        }
        i := i + 1;
      }
      assert ds[..i] == ds;
    }

    /** `DashboardTheme.initialize_defaults(reset_all)`: the loop over
        `DEFAULT_THEME_COLORS`. */
    method InitializeDefaults(resetAll: bool) returns (created: nat, updated: nat)
      modifies this
      ensures Upserted(rows, created, updated) == UpsertAll(old(rows), Defaults, resetAll)
    {
      created, updated := UpsertDefaults(Defaults, resetAll);
    }
  }

  /** Afterwards the table holds exactly the keys it held plus the default
      keys, and keys outside the defaults keep their rows. */
  lemma {:induction false} UpsertKeys(rows: map<string, Setting>, ds: seq<Default>, resetAll: bool)
    ensures UpsertAll(rows, ds, resetAll).rows.Keys == rows.Keys + Keys(ds)
    ensures forall k :: k in rows && k !in Keys(ds) ==> UpsertAll(rows, ds, resetAll).rows[k] == rows[k]
    decreases |ds|
  {
    if ds != [] {
      var front := ds[..|ds| - 1];
      UpsertKeys(rows, front, resetAll);
      assert Keys(ds) == Keys(front) + {ds[|ds| - 1].key};
    }
  }

  /** Adding one key to a set grows its part outside `known` by one exactly
      when the key is new to both. */
  lemma DiffAddOne(known: set<string>, front: set<string>, x: string)
    ensures |(front + {x}) - known| == |front - known| + (if x in known + front then 0 else 1)
  {
    if x in known + front {
      assert (front + {x}) - known == front - known;
    } else {
      assert (front + {x}) - known == (front - known) + {x};
    }
  }

  /** The number created is the number of default keys that were absent. */
  lemma {:induction false} UpsertCreated(rows: map<string, Setting>, ds: seq<Default>, resetAll: bool)
    ensures UpsertAll(rows, ds, resetAll).created == |Keys(ds) - rows.Keys|
    decreases |ds|
  {
    if ds != [] {
      var front := ds[..|ds| - 1];
      var d := ds[|ds| - 1];
      UpsertCreated(rows, front, resetAll);
      UpsertKeys(rows, front, resetAll);
      assert Keys(ds) == Keys(front) + {d.key};
      DiffAddOne(rows.Keys, Keys(front), d.key);
    }
  }

  /** Without `resetAll` nothing is updated and every row already present is
      left exactly as it was. */
  lemma {:induction false} InsertOnlyKeepsRows(rows: map<string, Setting>, ds: seq<Default>)
    ensures var u := UpsertAll(rows, ds, false);
      && u.updated == 0
      && (forall k :: k in rows ==> k in u.rows && u.rows[k] == rows[k])
    decreases |ds|
  {
    if ds != [] {
      InsertOnlyKeepsRows(rows, ds[..|ds| - 1]);
    }
  }

  /** With `resetAll` every default is counted once, as created or updated. */
  lemma {:induction false} ResetCountsEveryDefault(rows: map<string, Setting>, ds: seq<Default>)
    ensures var u := UpsertAll(rows, ds, true);
      u.created + u.updated == |ds|
    decreases |ds|
  {
    if ds != [] {
      ResetCountsEveryDefault(rows, ds[..|ds| - 1]);
    }
  }

  /** With `resetAll` each default key afterwards holds its own default
      value, description and category, given distinct keys. */
  lemma {:induction false} ResetRestoresDefaults(rows: map<string, Setting>, ds: seq<Default>)
    requires DistinctKeys(ds)
    ensures forall i :: 0 <= i < |ds| ==>
      ds[i].key in UpsertAll(rows, ds, true).rows && UpsertAll(rows, ds, true).rows[ds[i].key] == SettingOf(ds[i])
    decreases |ds|
  {
    if ds != [] {
      var front := ds[..|ds| - 1];
      ResetRestoresDefaults(rows, front);
      forall i | 0 <= i < |ds|
        ensures ds[i].key in UpsertAll(rows, ds, true).rows && UpsertAll(rows, ds, true).rows[ds[i].key] == SettingOf(ds[i])
      {
        if i < |front| {
          assert front[i] == ds[i];
          assert ds[i].key != ds[|ds| - 1].key;
        }
      }
    }
  }

  /** Without `resetAll`, a default key that was absent gets its default row,
      given distinct keys. */
  lemma {:induction false} InsertOnlyFillsAbsent(rows: map<string, Setting>, ds: seq<Default>)
    requires DistinctKeys(ds)
    ensures forall i :: 0 <= i < |ds| && ds[i].key !in rows ==>
      ds[i].key in UpsertAll(rows, ds, false).rows && UpsertAll(rows, ds, false).rows[ds[i].key] == SettingOf(ds[i])
    decreases |ds|
  {
    if ds != [] {
      var front := ds[..|ds| - 1];
      var d := ds[|ds| - 1];
      InsertOnlyFillsAbsent(rows, front);
      UpsertKeys(rows, front, false);
      var u := UpsertAll(rows, front, false);
      assert UpsertAll(rows, ds, false) == UpsertOne(u, d, false);
      forall i | 0 <= i < |ds| && ds[i].key !in rows
        ensures ds[i].key in UpsertAll(rows, ds, false).rows && UpsertAll(rows, ds, false).rows[ds[i].key] == SettingOf(ds[i])
      {
        if i < |front| {
          assert front[i] == ds[i];
          assert ds[i].key != d.key;
        } else {
          assert d.key !in Keys(front) by {
            forall j | 0 <= j < |front|
              ensures front[j].key != d.key
            {
              assert front[j] == ds[j];
            }
          }
          assert d.key !in u.rows;
        }
      }
    }
  }

  /** Once every default key is present, an insert-only pass creates
      nothing, updates nothing and changes nothing. */
  lemma {:induction false} InsertOnlyWhenPresent(rows: map<string, Setting>, ds: seq<Default>)
    requires Keys(ds) <= rows.Keys
    ensures UpsertAll(rows, ds, false) == Upserted(rows, 0, 0)
    decreases |ds|
  {
    if ds != [] {
      assert Keys(ds) == Keys(ds[..|ds| - 1]) + {ds[|ds| - 1].key};
      InsertOnlyWhenPresent(rows, ds[..|ds| - 1]);
    }
  }

  /** `initialize_defaults()` without reset: it returns (number inserted, 0),
      inserts exactly the missing default keys with their default rows, and
      leaves every existing row alone. */
  lemma InitializeInsertOnly(rows: map<string, Setting>)
    ensures var u := UpsertAll(rows, Defaults, false);
      && u.updated == 0
      && u.created == |Keys(Defaults) - rows.Keys|
      && u.rows.Keys == rows.Keys + Keys(Defaults)
      && (forall k :: k in rows ==> k in u.rows && u.rows[k] == rows[k])
      && (forall i :: 0 <= i < |Defaults| && Defaults[i].key !in rows ==>
            Defaults[i].key in u.rows && u.rows[Defaults[i].key] == SettingOf(Defaults[i]))
  {
    DefaultsShape();
    UpsertKeys(rows, Defaults, false);
    UpsertCreated(rows, Defaults, false);
    InsertOnlyKeepsRows(rows, Defaults);
    InsertOnlyFillsAbsent(rows, Defaults);
  }

  /** A second call without reset, after any first call, returns (0, 0) and
      changes nothing. */
  lemma InitializeTwice(rows: map<string, Setting>, resetAll: bool)
    ensures var u := UpsertAll(rows, Defaults, resetAll);
      UpsertAll(u.rows, Defaults, false) == Upserted(u.rows, 0, 0)
  {
    UpsertKeys(rows, Defaults, resetAll);
    InsertOnlyWhenPresent(UpsertAll(rows, Defaults, resetAll).rows, Defaults);
  }

  /** `initialize_defaults(reset_all=True)`: created + updated is 49, every
      default key holds its default value, description and category, and
      keys outside the defaults keep their rows. */
  lemma InitializeReset(rows: map<string, Setting>)
    ensures var u := UpsertAll(rows, Defaults, true);
      && u.created + u.updated == 49
      && u.created == |Keys(Defaults) - rows.Keys|
      && (forall i :: 0 <= i < |Defaults| ==> Defaults[i].key in u.rows && u.rows[Defaults[i].key] == SettingOf(Defaults[i]))
      && (forall k :: k in rows && k !in Keys(Defaults) ==> k in u.rows && u.rows[k] == rows[k])
  {
    DefaultsShape();
    UpsertCreated(rows, Defaults, true);
    UpsertKeys(rows, Defaults, true);
    ResetCountsEveryDefault(rows, Defaults);
    ResetRestoresDefaults(rows, Defaults);
  }

  // ---------------------------------------------------------------------
  // Display strings

  /** `DashboardTheme.__str__`: "key = value", "(empty)" standing for an
      empty value. */
  function ThemeLabel(key: string, value: string): (r: string)
    ensures |r| >= |key| + 3 && r[..|key| + 3] == key + " = "
    ensures value != [] ==> r[|key| + 3..] == value
    ensures value == [] ==> r[|key| + 3..] == "(empty)"
  {
    key + " = " + (if value == [] then "(empty)" else value)
  }

  /** For one key the label tells the value apart, except that an empty value
      and the literal value "(empty)" look the same. */
  lemma ThemeLabelDeterminesValue(key: string, v1: string, v2: string)
    requires ThemeLabel(key, v1) == ThemeLabel(key, v2)
    ensures v1 == v2 || (v1 == [] && v2 == "(empty)") || (v1 == "(empty)" && v2 == [])
  {
    assert ThemeLabel(key, v1)[|key| + 3..] == ThemeLabel(key, v2)[|key| + 3..];
  }

  /** `PhaseSection.__str__`: "N LABEL" (LABEL "DAYS" when empty) with a
      days number; otherwise the title, or "Phase Section". */
  function PhaseSectionLabel(daysNumber: Option<nat>, daysLabel: string, title: Option<string>): (r: string)
    ensures r != []
    ensures daysNumber.Some? ==> r == Decimal(daysNumber.value) + " " + (if daysLabel == [] then "DAYS" else daysLabel)
    ensures daysNumber.None? && title.Some? && title.value != [] ==> r == title.value
    ensures daysNumber.None? && (title.None? || title.value == []) ==> r == "Phase Section"
  {
    if daysNumber.Some? then Decimal(daysNumber.value) + " " + (if daysLabel == [] then "DAYS" else daysLabel)
    else if title.Some? && title.value != [] then title.value
    else "Phase Section"
  }

  /** The system shown for a warehouse business system: the override, else
      the linked system's name, else "". */
  function SystemName(nameOverride: string, system: Option<string>): (r: string)
    ensures nameOverride != [] ==> r == nameOverride
    ensures nameOverride == [] && system.Some? ==> r == system.value
    ensures nameOverride == [] && system.None? ==> r == []
  {
    if nameOverride != [] then nameOverride else if system.Some? then system.value else ""
  }

  /** `WarehouseBusinessSystem.__str__`: "warehouse — business: system". The
      label starts with the warehouse name and ends with the system name, so
      the override always shows when it is set. */
  function BusinessSystemLabel(warehouse: string, business: string, nameOverride: string,
                               system: Option<string>): (r: string)
    ensures |r| == |warehouse| + |business| + |SystemName(nameOverride, system)| + 5
    ensures r[..|warehouse|] == warehouse
    ensures r[|warehouse|..|r| - |SystemName(nameOverride, system)|] == " \U{2014} " + business + ": "
    ensures r[|r| - |SystemName(nameOverride, system)|..] == SystemName(nameOverride, system)
  {
    warehouse + " \U{2014} " + business + ": " + SystemName(nameOverride, system)
  }

  /** For one warehouse and business unit, the label tells the systems apart. */
  lemma BusinessSystemLabelDistinguishesSystems(warehouse: string, business: string,
                                                o1: string, s1: Option<string>, o2: string, s2: Option<string>)
    requires BusinessSystemLabel(warehouse, business, o1, s1) == BusinessSystemLabel(warehouse, business, o2, s2)
    ensures SystemName(o1, s1) == SystemName(o2, s2)
  {
    var r := BusinessSystemLabel(warehouse, business, o1, s1);
    assert |SystemName(o1, s1)| == |SystemName(o2, s2)|;
    assert SystemName(o1, s1) == r[|r| - |SystemName(o1, s1)|..];
  }
}
