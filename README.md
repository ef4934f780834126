# Dashboard importers, context helpers and template tags in Dafny

This project models the logic of a Django reporting dashboard. The model covers four parts.

- **The six spreadsheet importers**: weekly tracker, potential challenges, progress status, clerk interview, clerk details and WH data. Each one does four things:
  - It resolves logical fields to sheet headers. The search is first-match over a list of aliases, and each importer normalises names in its own way.
  - It cleans cells. This covers `_normalize_col`, the status classifiers, the progress-percentage rule and `_parse_date`.
  - It walks the rows. Some rows are skipped; for the others it bumps `display_order` and offers the row to the database. A refusal is recorded as "Row n: …".
  - It returns `(created_count, errors)`.
- **`context_helpers.py`**:
  - the theme dictionary with its defaults;
  - `phase_progress`, the month sections and their "This month" / "Last month" labels;
  - the employee chart percentage and the warehouse badge colour;
  - the phase-section ribbon;
  - the recommendation cards grouped by (business, user name).
- **`templatetags/custom_tags.py`**:
  - the `get_item`, `trim`, `strip_spaces` and `normalize` filters;
  - the way `render_chart` picks its datasets: by sub-table id, then by sub-table title, then by the tab's datasets;
  - the `chart` defaults it sets, and the empty result it gives when no dataset is left.
- **`models.py`**:
  - the theme defaults table and the category choices;
  - `DashboardTheme.initialize_defaults`, an insert-only or reset-all upsert that returns (created, updated);
  - the `__str__` fallbacks.

## Layout

| File | Module | What it holds |
|---|---|---|
| `text.dfy` | `Text` | Python's `strip`, ASCII `lower`, `replace`, substring search, decimal rendering, `split(None, 1)` |
| `cells.dfy` | `Cells` | cells and the per-cell normalisers shared by the importers |
| `columns.dfy` | `Columns` | the first-match header search and each importer's name normalisation; the `col_map` loop (`ResolveFields`) |
| `rows.dfy` | `Rows` | the sheet, the error messages, the database table (`Store`, a class whose `create` may refuse), the row loop as a function (`Run`) and as a method (`AppendRows`), and the sheet fallback |
| `weekly.dfy`, `challenges.dfy`, `progress.dfy`, `interview.dfy`, `details.dfy`, `whdata.dfy` | one module per importer | column resolution, the per-row plan and the whole import as a method over `Store` |
| `models.dfy` | `Models` | theme defaults, the `ThemeTable` class with `initialize_defaults`, and the `__str__` fallbacks |
| `context.dfy` | `Context` | the helpers of `context_helpers.py` |
| `tags.dfy` | `Tags` | the template filters and `render_chart` |

### How the imperative parts are modelled

Each importer's `Import` method changes a `Rows.Store` in place. Its contract ties the returned pair and the new table contents to a specification function, `Imported`. The lemmas about `Imported` and `Loaded` state what the importer promises.

The WH importer's business units are a second class, `WhDataImport.UnitTable`, whose `Obtain` method does the lookup-or-create.

`Models.ThemeTable` is the theme table. Its `InitializeDefaults` method is proved equal to the function `UpsertAll`, and the upsert properties are lemmas about that function.

## Model

| member | source | states |
|---|---|---|
| Text.Strip | dashboard/weekly_tracker_import.py:9-12 | Python's `str.strip`: the result is no longer than the input and neither starts nor ends with whitespace |
| Text.StripEmptyIff | dashboard/weekly_tracker_import.py:9-12 | a cell cleans to "" exactly when it is all whitespace |
| Text.StripIdempotent | dashboard/templatetags/custom_tags.py:24-28 | stripping twice is stripping once |
| Text.TrimLeft | dashboard/weekly_tracker_import.py:12 | the left trim removes only leading whitespace, and what is left does not start with whitespace |
| Text.TrimRight | dashboard/weekly_tracker_import.py:12 | the right trim removes only trailing whitespace, and what is left does not end with whitespace |
| Text.StripUnchanged | dashboard/templatetags/custom_tags.py:24-28 | a string without whitespace at either end is left as it is |
| Text.Lower | dashboard/weekly_tracker_import.py:42 | lower-casing keeps the length and maps each character independently |
| Text.LowerIdempotent | dashboard/templatetags/custom_tags.py:432-436 | lower-casing twice is lower-casing once |
| Text.LowerSplit | dashboard/weekly_tracker_import.py:17-18 | lower-casing distributes over concatenation |
| Text.Delete | dashboard/weekly_tracker_import.py:17-18 | `replace(c, "")` leaves no `c` and never lengthens the string |
| Text.DeleteSplit | dashboard/weekly_tracker_import.py:17-18 | deleting a character distributes over concatenation |
| Text.DeleteOnce | dashboard/weekly_tracker_import.py:17-18 | deleting the one occurrence of `c` between two parts without `c` gives the parts joined |
| Text.DeleteAbsent | dashboard/weekly_tracker_import.py:17-18 | deleting a character that does not occur changes nothing |
| Text.ReplaceCharGone | dashboard/templatetags/custom_tags.py:144-150 | replacing one character by another removes it and keeps the length |
| Text.Decimal | dashboard/context_helpers.py:76-77 | `str(n)` of a natural number is a string of digits with no leading zero |
| Text.DecimalRoundTrip | dashboard/context_helpers.py:76-77 | reading back the decimal string of `n` gives `n` |
| Text.DecimalInjective | dashboard/context_helpers.py:76-77 | different numbers have different decimal strings |
| Text.TokenLength | dashboard/context_helpers.py:81 | the first token of a string is a run of non-space characters ending at a space or at the end |
| Text.SplitFirst | dashboard/context_helpers.py:81 | `split(None, 1)`: no part for an all-space string; otherwise a space-free first token and, if present, a remainder that starts with a non-space character |
| Text.Take | dashboard/weekly_tracker_import.py:95 | the headers listed in a missing-column message are a prefix of the headers, exactly `min(n, len(headers))` of them |
| Text.Join | dashboard/weekly_tracker_import.py:95 | `", ".join` of no parts is empty, and of one part is that part |
| Text.JoinSnoc | dashboard/weekly_tracker_import.py:95 | joining one more part appends the separator and that part to the joined text |
| Cells.Clean | dashboard/weekly_tracker_import.py:9-12 | `_normalize_col`: `None` or NaN gives ""; pandas' NaT is neither and reads as "NaT"; anything else is trimmed |
| Cells.Field | dashboard/weekly_tracker_import.py:110-114 | an unresolved column reads as "" |
| Cells.OrDash | dashboard/weekly_tracker_import.py:140-141 | `s or "—"` is never empty: it is `s` when `s` is non-empty, otherwise "—" |
| Cells.EmptyRowHasNoNaT | dashboard/progress_status_import.py:90-92 | a row the importers' own all-empty test skips holds no NaT cell, although `dropna` counts NaT as missing |
| Cells.WeeklyStatusCases | dashboard/weekly_tracker_import.py:40-51 | the weekly classifier gives completed exactly when "completed" or "done" occurs, and in_progress exactly when neither does but "progress" does, or "started" does without "not" |
| Cells.PlainStatusCases | dashboard/potential_challenges_import.py:36-44 | the plain classifier gives completed exactly when "completed" or "done" occurs, and in_progress exactly when neither does and "progress" does |
| Cells.StartedClassifiedDifferently | dashboard/progress_status_import.py:31-39 | "Started" is in_progress for the weekly tracker but not_started for the challenges and progress-status classifiers |
| Cells.RoundHalfEven | dashboard/weekly_tracker_import.py:132 | Python's `round`: the result is within one half of the input, and an exact tie goes to the even neighbour |
| Cells.Clamp | dashboard/weekly_tracker_import.py:133 | `max(0, min(100, v))` lies in [0, 100], keeps values already in range and maps values below 0 to 0 and above 100 to 100 |
| Cells.Percent | dashboard/weekly_tracker_import.py:128-133 | the percentage lies in [0, 100]; a fraction strictly between 0 and 1 is multiplied by 100 and rounded half to even; any other value, 0 and 1 included, is rounded half to even and clamped to [0, 100] |
| Cells.Progress | dashboard/weekly_tracker_import.py:121-135 | the stored progress lies in [0, 100]; a missing cell, a NaT cell or a timestamp gives 0; a number gives its `Percent`; text gives the `Percent` of what `float` makes of it with "%" removed, or 0 when that fails |
| Cells.PercentKeepsWhole | dashboard/weekly_tracker_import.py:129-133 | a whole percentage in [0, 100] is stored unchanged, so 0 and 1 are not scaled |
| Cells.PercentOfFraction | dashboard/weekly_tracker_import.py:129-132 | a fraction strictly between 0 and 1 is scaled by 100 and rounded half to even |
| Cells.PercentIdempotent | dashboard/weekly_tracker_import.py:128-133 | normalising a stored percentage again gives the same value |
| Cells.PercentExamples | dashboard/weekly_tracker_import.py:128-133 | 0.73 gives 73, 73.0 gives 73, 1.0 gives 1 and 0.0 gives 0 |
| Cells.ProgressIgnoresPercentSign | dashboard/weekly_tracker_import.py:126-127 | a trailing "%" on a text cell does not change the stored progress |
| Cells.ParseDate | dashboard/clerk_interview_import.py:24-35 | `_parse_date` never fails: a timestamp gives its date, a NaT cell gives back NaT (it has a `date` method), and a missing or blank value gives none |
| Columns.HeaderFor | dashboard/clerk_interview_import.py:18-20 | the inner loop returns the first header that matches the candidate, and none only when no header matches |
| Columns.Search | dashboard/clerk_interview_import.py:14-21 | the alias search returns a match for the earliest candidate that matches any header, at that candidate's first matching header; none only when no pair matches |
| Columns.TwoPass | dashboard/weekly_tracker_import.py:15-37 | with an exact match anywhere, the result is the exact pass's first match (earliest candidate, then earliest header); with none, it is the loose pass's first match; none only when neither kind exists |
| Columns.MatchKey | dashboard/weekly_tracker_import.py:17-18 | the weekly and challenges header key contains no space, "%", "(" or ")" |
| Columns.FindWeeklySound | dashboard/weekly_tracker_import.py:20-37 | a weekly column is found exactly when some candidate's key equals some header's key, or occurs in it with length at least 4 |
| Columns.EmptyKeyNeverMatches | dashboard/weekly_tracker_import.py:23-24 | a candidate whose key is empty matches no header in either pass, whichever the threshold |
| Columns.KeyIgnoresInnerDecoration | dashboard/weekly_tracker_import.py:17-18 | a space, "%", "(" or ")" inside a trimmed name does not change its key |
| Columns.KeyIgnoresTrailingDecoration | dashboard/weekly_tracker_import.py:17-18 | a trailing "%", "(" or ")" does not change a trimmed name's key |
| Columns.PercentHeaderKey | dashboard/weekly_tracker_import.py:76-87 | "W (%)" and "W %" have the key of "W" |
| Columns.SameKeyResolves | dashboard/weekly_tracker_import.py:21-27 | a header whose key equals a non-empty candidate key is found by the weekly and the challenges search |
| Columns.PercentHeaderResolves | dashboard/weekly_tracker_import.py:76-87 | header "Progress (%)" is found for candidate "Progress %" by both the weekly and the challenges search |
| Columns.KeyOfWord | dashboard/weekly_tracker_import.py:17-18 | a trimmed name without decoration keeps its length in the key |
| Columns.Scrub | dashboard/weekly_tracker_import.py:18 | removing decoration leaves no space, "%", "(" or ")" |
| Columns.SpaceFreeKey | dashboard/progress_status_import.py:17 | the progress-status key contains no space |
| Columns.PercentKeptInSpaceFreeKey | dashboard/progress_status_import.py:15-28 | unlike the weekly key, the progress-status key keeps "%": "W %" and "W" have different progress-status keys but the same weekly key |
| Columns.FindExact | dashboard/clerk_interview_import.py:14-21 | the exact search finds a header in range, and none exactly when no candidate equals any header after trimming and lower-casing |
| Columns.PercentSurvives | dashboard/progress_status_import.py:17 | a trailing "%" on a name survives in the progress-status key |
| Columns.PercentAbsent | dashboard/progress_status_import.py:17 | a trimmed name without "%" has a progress-status key without "%" |
| Columns.EarlierAliasWins | dashboard/clerk_details_import.py:15-22 | the earliest alias that occurs decides the column, whatever the header order |
| Columns.SearchSettlesOn | dashboard/clerk_details_import.py:17-21 | once candidate `k` matches and no earlier one does, the search returns candidate `k` at its first matching header |
| Columns.ResolvedAt | dashboard/clerk_interview_import.py:77-81 | after the `col_map` loop a field is in `found_cols` exactly when its aliases resolve, and then it maps to that column |
| Columns.ResolvedAbsent | dashboard/clerk_interview_import.py:77-81 | a field not in `col_map` is never in `found_cols` |
| Columns.ResolvedInRange | dashboard/clerk_interview_import.py:77-81 | every column in `found_cols` is a header of the sheet |
| Columns.ResolveFields | dashboard/clerk_details_import.py:57-61 | the loop builds exactly the resolved map, and every column it stores is in range |
| Columns.Lookup | dashboard/clerk_details_import.py:79 | `found_cols.get(field)` gives a column exactly when the field was resolved |
| Columns.Value | dashboard/clerk_details_import.py:78-84 | `get_val` reads an unresolved field as "" and a resolved one as its cleaned cell |
| Rows.MaxOrder | dashboard/weekly_tracker_import.py:102-105 | `Max("display_order") or 0` is at least every stored order and is 0 or one of them |
| Rows.Store.Create | dashboard/weekly_tracker_import.py:139-149 | `objects.create` appends the row when the table accepts it, and otherwise raises and leaves the table as it was |
| Rows.Planned | dashboard/weekly_tracker_import.py:109-117 | one planned row per attempted line |
| Rows.Numbered | dashboard/weekly_tracker_import.py:138-145 | the k-th created row gets order base + 1 + k |
| Rows.RunBookkeeping | dashboard/weekly_tracker_import.py:102-149 | after the loop `created_count` equals the number of rows created; their orders are strictly increasing and above the previous maximum; the counter has moved once per attempt; each attempt is either a created row or an error |
| Rows.StepKeepsOrder | dashboard/weekly_tracker_import.py:138-145 | a row created with the next counter value keeps the orders strictly increasing |
| Rows.RunErrorLines | dashboard/weekly_tracker_import.py:148-149 | the loop adds only "Row n" errors, with n between 2 and the last sheet line, in increasing line order |
| Rows.RunAcceptAll | dashboard/weekly_tracker_import.py:137-147 | when the table accepts every row, the loop creates exactly the planned rows with consecutive orders and records no error |
| Rows.RunBookkeepingPrefix | dashboard/weekly_tracker_import.py:137-149 | rows created earlier are never removed by later rows |
| Rows.RunRefuseAll | dashboard/progress_status_import.py:103-114 | when the table refuses every row, nothing is created, each attempt records an error and still uses an order number |
| Rows.RunLast | dashboard/progress_status_import.py:103 | the counter ends at the previous maximum plus the number of attempts, failed ones included |
| Rows.RunAllSkipped | dashboard/weekly_tracker_import.py:116-117 | when every row is skipped, the loop changes nothing |
| Rows.RunKeeps | dashboard/weekly_tracker_import.py:139-146 | a property of every planned row holds for every created row |
| Rows.AppendRows | dashboard/weekly_tracker_import.py:109-149 | the imperative loop over a table computes the loop function, and the table gains exactly the created rows |
| Rows.LoadWithFallback | dashboard/potential_challenges_import.py:59-74 | a successful read is kept; any other error is reported as it is; after a "not found" / "worksheet" / "no sheet" error, a failed listing reports the listing's error, a listing with a non-empty first name gives the read of that sheet (its failure included), and otherwise the original error stands |
| Rows.OtherErrorsReported | dashboard/potential_challenges_import.py:73-74 | another read error is reported as "Could not read file: …" |
| WeeklyImport.MissingColumns | dashboard/weekly_tracker_import.py:90-98 | no error exactly when Week, Task and Progress are all found; otherwise one message per missing column, with the Progress message listing the first ten headers |
| WeeklyImport.PlanRow | dashboard/weekly_tracker_import.py:109-146 | a row is skipped exactly when Week and Task are both empty; otherwise week and task are kept, or stored as "—" when empty; an empty status is not_started, otherwise it is classified; progress lies in [0, 100], is 0 without a Progress column, and is otherwise the `Cells.Progress` of the row's Progress cell |
| WeeklyImport.PlannerWellFormed | dashboard/weekly_tracker_import.py:139-146 | every row the importer would create has a non-empty week and task and a progress in [0, 100] |
| WeeklyImport.Import | dashboard/weekly_tracker_import.py:54-151 | the importer's returned pair and the table's new rows are those of the specification `Imported` |
| WeeklyImport.MissingColumnStopsImport | dashboard/weekly_tracker_import.py:90-98 | a missing Week, Task or Progress column creates nothing and returns one to three missing-column messages |
| WeeklyImport.ImportBookkeeping | dashboard/weekly_tracker_import.py:100-151 | `created_count` counts the created rows; their orders increase strictly from the previous maximum; every attempted row is created or reported |
| WeeklyImport.RowsWithoutWeekOrTaskIgnored | dashboard/weekly_tracker_import.py:116-117 | a sheet whose rows all lack both Week and Task creates nothing and reports no row |
| WeeklyImport.StoredRowsWellFormed | dashboard/weekly_tracker_import.py:139-146 | every created row is well formed |
| WeeklyImport.RunWellFormed | dashboard/weekly_tracker_import.py:109-149 | every row the loop creates is well formed, whichever rows the table refuses |
| WeeklyImport.ImportStoresWellFormed | dashboard/weekly_tracker_import.py:54-151 | whatever the file, every row the importer creates is well formed |
| ChallengesImport.MissingColumns | dashboard/potential_challenges_import.py:87-91 | only Challenges is required; without it the single message lists the first twelve headers |
| ChallengesImport.PlanRow | dashboard/potential_challenges_import.py:101-137 | a row is skipped exactly when Date and Challenges are both empty; date, challenges and solutions are kept or stored as "—"; the status uses the plain classifier; progress lies in [0, 100], is 0 without a Progress column, and is otherwise the `Cells.Progress` of the row's Progress cell |
| ChallengesImport.PlannerWellFormed | dashboard/potential_challenges_import.py:130-137 | every row it would create has non-empty date, challenges and solutions and a progress in [0, 100] |
| ChallengesImport.NaTDateRowKept | dashboard/potential_challenges_import.py:101-109 | a row whose Date cell pandas read as NaT is kept even with an empty Challenges cell, and is stored with the date "NaT" |
| ChallengesImport.Import | dashboard/potential_challenges_import.py:47-142 | the importer, sheet fallback included, agrees with the specification `Imported` on its result and the table's new rows |
| ChallengesImport.ChallengesColumnRequired | dashboard/potential_challenges_import.py:87-91 | without a Challenges column nothing is created and one message is returned; with one, every error is a row error |
| ChallengesImport.ImportBookkeeping | dashboard/potential_challenges_import.py:93-142 | `created_count` counts the created rows, orders increase strictly from the previous maximum, and every attempted row is created or reported |
| ChallengesImport.StoredRowsWellFormed | dashboard/potential_challenges_import.py:130-137 | every created row is well formed |
| ChallengesImport.RunWellFormed | dashboard/potential_challenges_import.py:101-140 | every row the loop creates is well formed, whichever rows the table refuses |
| ChallengesImport.ImportStoresWellFormed | dashboard/potential_challenges_import.py:47-142 | whatever the file, every created row is well formed |
| ChallengesImport.FirstSheetFallback | dashboard/potential_challenges_import.py:62-68 | after a sheet-not-found error the import is the import of the file's first sheet |
| ChallengesImport.NoSheetsReportsOriginalError | dashboard/potential_challenges_import.py:66-70 | with no usable sheet name the original read error is reported |
| ProgressImport.MissingColumns | dashboard/progress_status_import.py:79-80 | an error exactly when neither Clerk nor Account is found |
| ProgressImport.PlanRow | dashboard/progress_status_import.py:90-111 | a row is skipped exactly when it is all empty or has neither clerk nor account; remark is kept; an empty status is not_started, otherwise it is classified |
| ProgressImport.PlannerWellFormed | dashboard/progress_status_import.py:105-111 | every row it would create has a clerk or an account |
| ProgressImport.Import | dashboard/progress_status_import.py:42-116 | the importer, sheet fallback included, agrees with the specification `Imported` on its result and the table's new rows |
| ProgressImport.FirstSheetFallback | dashboard/progress_status_import.py:55-66 | a sheet-not-found error with a listed first sheet imports that sheet |
| ProgressImport.FailedListingReported | dashboard/progress_status_import.py:55-67 | a failed sheet listing is reported with the listing's error |
| ProgressImport.NoKeyColumnImportsNothing | dashboard/progress_status_import.py:79-97 | without Clerk and Account columns the import does not stop, but every row is skipped: nothing is created and the only error is the missing-column one |
| ProgressImport.ImportBookkeeping | dashboard/progress_status_import.py:82-116 | the column error comes first and every later error is a row error; `created_count` counts the created rows; orders increase strictly; every attempted row is created or reported |
| ProgressImport.StoredRowsWellFormed | dashboard/progress_status_import.py:105-111 | every created row is well formed |
| ProgressImport.ImportStoresWellFormed | dashboard/progress_status_import.py:42-116 | whatever the file, every created row is well formed |
| InterviewImport.DateOf | dashboard/clerk_interview_import.py:100-106 | the date is none without a Date column or for a blank cell; a timestamp cell gives its day, and a NaT cell gives NaT |
| InterviewImport.MissingColumns | dashboard/clerk_interview_import.py:84-85 | an error exactly when none of NO, Clerk Name, DEPT_NAME_EN and Date is found |
| InterviewImport.PlanRow | dashboard/clerk_interview_import.py:95-133 | a row is skipped exactly when it is all empty or has no NO, Clerk Name and DEPT_NAME_EN; every text field is its cleaned cell, or "" when its column is not found; the date is parsed |
| InterviewImport.PlannerWellFormed | dashboard/clerk_interview_import.py:115-133 | every row it would create has all text fields and a NO, clerk name or department |
| InterviewImport.Import | dashboard/clerk_interview_import.py:38-138 | the importer agrees with the specification `Imported` on its result and the table's new rows |
| InterviewImport.NoKeyColumnImportsNothing | dashboard/clerk_interview_import.py:84-111 | without NO, Clerk Name and DEPT_NAME_EN columns every row is skipped and only the column error, if any, is returned |
| InterviewImport.ImportBookkeeping | dashboard/clerk_interview_import.py:87-138 | `created_count` counts the created rows, orders increase strictly, and every attempted row is created or reported |
| InterviewImport.EveryCreateRefused | dashboard/clerk_interview_import.py:113-136 | when every create fails, nothing is created, each attempted row is reported, and each still uses an order number |
| InterviewImport.StoredRowsWellFormed | dashboard/clerk_interview_import.py:115-133 | every created row is well formed |
| InterviewImport.ImportStoresWellFormed | dashboard/clerk_interview_import.py:38-138 | whatever the file, every created row is well formed |
| DetailsImport.MissingColumns | dashboard/clerk_details_import.py:63-64 | an error exactly when DEPT_NAME_EN is not found |
| DetailsImport.PlanRow | dashboard/clerk_details_import.py:74-102 | a row is skipped exactly when it is all empty or its DEPT_NAME_EN is empty; every field is its cleaned cell, or "" when its column is not found |
| DetailsImport.PlannerWellFormed | dashboard/clerk_details_import.py:88-102 | every row it would create has all fields and a non-empty DEPT_NAME_EN |
| DetailsImport.Import | dashboard/clerk_details_import.py:25-107 | the importer agrees with the specification `Imported` on its result and the table's new rows |
| DetailsImport.NoDeptColumnImportsNothing | dashboard/clerk_details_import.py:63-86 | without a DEPT_NAME_EN column every row is skipped and the only error is the missing-column one |
| DetailsImport.ImportBookkeeping | dashboard/clerk_details_import.py:66-107 | `created_count` counts only successful creates, orders increase strictly, and every attempted row is created or reported |
| DetailsImport.StoredRowsWellFormed | dashboard/clerk_details_import.py:88-102 | every created row is well formed |
| DetailsImport.ImportStoresWellFormed | dashboard/clerk_details_import.py:25-107 | whatever the file, every created row is well formed |
| WhDataImport.FirstNamed | dashboard/wh_data_import.py:89 | `filter(name=…).first()` finds the first unit bearing the name, and none only when no unit has it |
| WhDataImport.ObtainIn | dashboard/wh_data_import.py:89-91 | an existing name gives the first unit with that name and adds nothing; otherwise one unit is created with the name at the end of the table, or creation fails and the table is unchanged |
| WhDataImport.ObtainKeepsDistinct | dashboard/wh_data_import.py:89-91 | get-or-create keeps unit names distinct |
| WhDataImport.ObtainIdempotent | dashboard/wh_data_import.py:89-96 | asking again for a name just obtained returns the same unit and changes nothing |
| WhDataImport.UnitTable.Obtain | dashboard/wh_data_import.py:89-91 | the method on the unit table does the lookup-or-create `ObtainIn` specifies |
| WhDataImport.MissingColumns | dashboard/wh_data_import.py:51-61 | no error exactly when WH, Emp No, Full Name and Business are all found; otherwise one message per missing column; Business 2 is optional |
| WhDataImport.ValuesOf | dashboard/wh_data_import.py:74-78 | the row's five values are the cleaned cells of their columns |
| WhDataImport.ObtainOptional | dashboard/wh_data_import.py:92-96 | an empty Business 2 gives no unit and changes nothing; otherwise it is obtained like the first business |
| WhDataImport.PlaceKeeps | dashboard/wh_data_import.py:83-113 | processing a kept row keeps the bookkeeping: counts, increasing orders, units only added, and created rows pointing at units |
| WhDataImport.WhRunKeeps | dashboard/wh_data_import.py:73-113 | the whole loop keeps that bookkeeping |
| WhDataImport.PlaceRow | dashboard/wh_data_import.py:83-113 | the imperative handling of a kept row computes `Place` and appends the created row to the table |
| WhDataImport.StepRow | dashboard/wh_data_import.py:73-113 | the imperative loop body computes `WhStep` |
| WhDataImport.ImportRows | dashboard/wh_data_import.py:73-113 | the imperative loop computes `WhRun`, and the table gains exactly the created rows |
| WhDataImport.Import | dashboard/wh_data_import.py:25-115 | the importer agrees with the specification `Imported` on its result, the new unit table and the table's new rows |
| WhDataImport.MissingColumnStopsImport | dashboard/wh_data_import.py:51-61 | a missing required column creates nothing, adds no unit and returns one to four messages |
| WhDataImport.ImportBookkeeping | dashboard/wh_data_import.py:64-115 | `created_count` counts the created rows, orders increase strictly, units are only added and stay distinct, and every created row points at a unit |
| WhDataImport.ImportKeepsUnitsConsistent | dashboard/wh_data_import.py:25-115 | whatever the file, units are only added and stay distinct, and every created row points at an existing unit |
| WhDataImport.BusinessRequiredRow | dashboard/wh_data_import.py:83-85 | a kept row without Business records "Row n: Business is required." and creates nothing |
| WhDataImport.KnownBusinessesReused | dashboard/wh_data_import.py:89-96 | a row whose businesses already exist adds no unit and points at the first unit of each name; Business 2 is none exactly when empty |
| WhDataImport.PlacedRecord | dashboard/wh_data_import.py:101-110 | a created row has a Business, the next order, "—" for an empty WH, Emp No or Full Name, and units bearing its business names |
| WhDataImport.KeylessRowIgnored | dashboard/wh_data_import.py:80-81 | a row without WH, Emp No and Full Name changes nothing |
| Models.Category.Name | dashboard/models.py:8-14 | every category is one of the five choices |
| Models.DefaultsShape | dashboard/models.py:18-77 | 49 defaults with pairwise distinct keys (the unique key constraint), non-empty values and valid categories |
| Models.ValuesNonEmpty | dashboard/models.py:18-77 | every default colour value is non-empty |
| Models.Keys | dashboard/models.py:108 | the keys of a defaults list are exactly the keys of its entries |
| Models.ThemeTable.GetOrCreate | dashboard/models.py:125-134 | `get_or_create` inserts only an absent key and reports whether it did |
| Models.ThemeTable.UpdateOrCreate | dashboard/models.py:111-122 | `update_or_create` sets the key and reports whether it was absent |
| Models.ThemeTable.UpsertDefaults | dashboard/models.py:106-135 | the loop computes `UpsertAll` over the given defaults |
| Models.ThemeTable.InitializeDefaults | dashboard/models.py:100-135 | `initialize_defaults` computes `UpsertAll` over the default table |
| Models.UpsertKeys | dashboard/models.py:108-134 | afterwards the keys are the old keys plus the default keys, and keys outside the defaults are untouched |
| Models.UpsertCreated | dashboard/models.py:119-120 | `created` is the number of default keys that were absent |
| Models.InsertOnlyKeepsRows | dashboard/models.py:123-134 | without reset, `updated` is 0 and no existing row changes |
| Models.InsertOnlyFillsAbsent | dashboard/models.py:125-132 | without reset, each absent default key gets its default setting |
| Models.InsertOnlyWhenPresent | dashboard/models.py:123-135 | without reset, when every default key exists nothing changes and (0, 0) is returned |
| Models.ResetCountsEveryDefault | dashboard/models.py:119-122 | with reset, created + updated is the number of defaults |
| Models.ResetRestoresDefaults | dashboard/models.py:109-118 | with reset, every default key holds its default value, description and category |
| Models.InitializeInsertOnly | dashboard/models.py:123-135 | the default call returns (number inserted, 0), keeps every existing row, and inserts each absent default |
| Models.InitializeTwice | dashboard/models.py:123-135 | a second call without reset returns (0, 0) and changes nothing |
| Models.InitializeReset | dashboard/models.py:108-135 | with reset, created + updated = 49, every default is restored, and keys outside the defaults are untouched |
| Models.ThemeLabel | dashboard/models.py:97-98 | `DashboardTheme.__str__` is "key = value", with "(empty)" for an empty value |
| Models.ThemeLabelDeterminesValue | dashboard/models.py:97-98 | the label tells values apart, except that an empty value and the text "(empty)" look the same |
| Models.PhaseSectionLabel | dashboard/models.py:322-325 | "N LABEL" (LABEL "DAYS" when empty) with a days number; otherwise the title, or "Phase Section" |
| Models.SystemName | dashboard/models.py:267 | the override if set, else the system's name, else "" |
| Models.BusinessSystemLabel | dashboard/models.py:266-268 | the label is the warehouse name, then " — " + business unit + ": ", then the system name, and nothing else |
| Models.BusinessSystemLabelDistinguishesSystems | dashboard/models.py:266-268 | for one warehouse and business unit, equal labels mean equal system names |
| Context.FillDefaults | dashboard/context_helpers.py:13-15 | the fill loop computes `FillAll` |
| Context.ThemeDict | dashboard/context_helpers.py:4-22 | a readable table gives the stored values with the defaults filled in; a database error gives the defaults alone |
| Context.FillAllKeys | dashboard/context_helpers.py:13-15 | filling adds exactly the default keys and leaves other keys alone |
| Context.FillAllValues | dashboard/context_helpers.py:13-15 | each default key keeps a non-empty stored value and otherwise gets its default |
| Context.ValuesMapValues | dashboard/context_helpers.py:18-22 | the fallback dictionary maps each default key to its default value |
| Context.ThemeDictComplete | dashboard/context_helpers.py:10-17 | after the merge every default key has a non-empty value, stored non-empty values are kept, and other stored keys are untouched |
| Context.FillAllComplete | dashboard/context_helpers.py:10-17 | for a defaults list with distinct keys and non-empty values, the merge has the stored keys plus the default keys; every default key has a non-empty value; stored non-empty values are kept |
| Context.FallbackIsEmptyMerge | dashboard/context_helpers.py:18-22 | the error fallback equals merging into an empty table |
| Context.Count | dashboard/context_helpers.py:422-424 | a status count never exceeds the number of items |
| Context.Share | dashboard/context_helpers.py:426-428 | a rounded share lies in [0, 100] |
| Context.ShareWithinHalf | dashboard/context_helpers.py:426-428 | the share is the whole percentage within one half of `100 * n / total`, and the even one on a tie, which is what `round` gives |
| Context.CountsFit | dashboard/context_helpers.py:422-425 | done + working_on_it + stuck never exceeds the number of items |
| Context.Progress | dashboard/context_helpers.py:408-442 | done + working_on_it + stuck + empty = total; every percentage lies in [0, 100]; `empty_pct` is max(0, 100 − the others); with no items it is all zeros and `empty_pct` 100; otherwise the done, working-on-it and stuck percentages are the `Share`s of their counts in the total |
| Context.PercentagesCover | dashboard/context_helpers.py:426-431 | the four percentages sum to at least 100, and to exactly 100 unless the three rounded shares overshoot |
| Context.EmptyShareWithoutEmptyItems | dashboard/context_helpers.py:426-431 | one item of each status gives 33/33/33 and an `empty_pct` of 1 although no item is empty |
| Context.ChartPercent | dashboard/context_helpers.py:146-153 | no allocated count gives none; 0 allocated, or no or zero pending, gives 0; otherwise the result lies in [0, 100], is 100 once pending reaches allocated, and below that is the `Share` of pending in allocated |
| Context.ChartPercentMonotone | dashboard/context_helpers.py:146-153 | more pending never lowers the chart percentage |
| Context.RoundMonotone | dashboard/context_helpers.py:150 | Python's `round` never decreases as its argument grows |
| Context.BadgeColor | dashboard/context_helpers.py:183-196 | no status gives gray; a non-empty, non-gray hex is kept; otherwise orange exactly when the name contains "partial" and not "active", else green |
| Context.BadgeGrayOnlyWithoutStatus | dashboard/context_helpers.py:183-196 | the badge is gray exactly when the warehouse has no status |
| Context.NamedColorsNotGray | dashboard/context_helpers.py:192-196 | the green and orange fallbacks are not the gray colour, so a status never shows as gray |
| Context.PreviousMonth | dashboard/context_helpers.py:462-463 | the month before January is December of the previous year |
| Context.MonthAbbr | dashboard/context_helpers.py:468 | a month abbreviation has three letters |
| Context.MonthLabel | dashboard/context_helpers.py:459-469 | "This month" exactly for the current month, "Last month" exactly for the previous one (December wrapping into January), otherwise "Mon YYYY" |
| Context.PhasesOf | dashboard/context_helpers.py:454-458 | each phase's progress covers all items of the month and is `Progress` of the items' statuses for that phase (brainstorming, execution, launch) |
| Context.PhaseDoneCounted | dashboard/context_helpers.py:422 | an item done in a phase makes that phase's done count positive |
| Context.SectionOf | dashboard/context_helpers.py:447-475 | a month section keeps the month's items, carries its label, and its progress is `PhasesOf` the items |
| Context.MonthSections | dashboard/context_helpers.py:446-475 | the loop builds one section per month, in order |
| Context.Summary | dashboard/context_helpers.py:477-489 | this month is the first section, last month the second; last month's progress falls back to this month's |
| Context.ProjectTracker | dashboard/context_helpers.py:445-533 | a database error gives the empty tracker; otherwise it is the summary of one section per month |
| Context.ThisMonthSlotIsNewest | dashboard/context_helpers.py:477 | when the newest month with items is not the current one, "this month" still shows its items while its label is not "This month" |
| Context.DaysCaption | dashboard/context_helpers.py:78 | the label is the trimmed days label, or "DAYS" when that is empty |
| Context.TitleRibbon | dashboard/context_helpers.py:80-87 | a number is shown exactly when the title's first token is all digits; the rest (trimmed) is the label; without a number the label is the title or "DAYS" |
| Context.SectionRibbon | dashboard/context_helpers.py:75-87 | with a days number it is shown with the days caption; otherwise the trimmed title is parsed; the label is never empty and the number is digits or "" |
| Context.SplitNumbered | dashboard/context_helpers.py:81 | "N caption" splits into N and caption |
| Context.TitleMatchesDaysNumber | dashboard/context_helpers.py:76-87 | a title "N caption" gives the same ribbon as days number N with that caption |
| Context.SectionLabelJoinsRibbon | dashboard/context_helpers.py:76-78 | with a days number `PhaseSection.__str__` is the ribbon's number and label joined by a space |
| Context.ItemOf | dashboard/context_helpers.py:343-351 | an item's icon background is the recommendation's, or the default when empty |
| Context.GroupByMembers | dashboard/context_helpers.py:339-341 | grouping keeps every recommendation, in order |
| Context.GroupByWellGrouped | dashboard/context_helpers.py:339-341 | groups are non-empty, each has one (business, user name), and neighbouring groups differ |
| Context.FirstIcon | dashboard/context_helpers.py:356 | the logo is a non-empty custom icon of some item, and none only when no item has one |
| Context.FirstIconIsFirst | dashboard/context_helpers.py:356 | the logo is the first item's icon that is set |
| Context.CardOf | dashboard/context_helpers.py:357-362 | a card holds one item per member, in order; an empty business shows as "—"; the logo is the first icon |
| Context.Recommendations | dashboard/context_helpers.py:324-366 | a failed query gives no cards; otherwise the loop builds one card per (business, user name) group, in order |
| Context.CardItemsOfGroups | dashboard/context_helpers.py:342-353 | the items of all cards, in order, are the items of all group members |
| Context.CardsCoverRecommendations | dashboard/context_helpers.py:338-363 | the cards hold exactly one item per recommendation, in order, and no card is empty |
| Tags.GetItem | dashboard/templatetags/custom_tags.py:10-21 | "" for a non-dict, a missing key, None or a nan/nat/none/<nat> text; otherwise the stored value unchanged; the result is never such a null text |
| Tags.BlankNotMasked | dashboard/templatetags/custom_tags.py:17-20 | an empty string is not one of the null texts: it is returned as stored |
| Tags.Trim | dashboard/templatetags/custom_tags.py:24-28 | strings are stripped, other values returned unchanged |
| Tags.TrimIdempotent | dashboard/templatetags/custom_tags.py:24-28 | trimming twice is trimming once |
| Tags.StripSpaces | dashboard/templatetags/custom_tags.py:424-429 | None gives ""; otherwise the trimmed text |
| Tags.StripSpacesIdempotent | dashboard/templatetags/custom_tags.py:424-429 | applying it twice is applying it once |
| Tags.Normalize | dashboard/templatetags/custom_tags.py:432-436 | falsy input gives ""; a string gives its trimmed lower-case form; a non-empty integer or other value without `strip` fails with Python's "'<type>' object has no attribute 'strip'" |
| Tags.NormalizeIntNamesType | dashboard/templatetags/custom_tags.py:436 | a non-zero integer fails with "'int' object has no attribute 'strip'", a message naming the type and not the value |
| Tags.NormalizeIdempotent | dashboard/templatetags/custom_tags.py:432-436 | `normalize` is idempotent on strings |
| Tags.NormNameDashFree | dashboard/templatetags/custom_tags.py:144-150 | the title normalisation leaves no em or en dash |
| Tags.StripKeepsAbsent | dashboard/templatetags/custom_tags.py:144-150 | stripping never introduces a character |
| Tags.Search | dashboard/templatetags/custom_tags.py:110-177 | the search yields non-empty datasets, and nothing only when no sub-table matches by id or title with data |
| Tags.SearchFindsFirst | dashboard/templatetags/custom_tags.py:110-177 | the first usable sub-table's datasets are returned |
| Tags.MatchWithoutDataSkipped | dashboard/templatetags/custom_tags.py:134-138 | a matching sub-table without data does not end the search |
| Tags.Filter | dashboard/templatetags/custom_tags.py:225-236 | the filter keeps exactly the datasets that pass, each taken from the input |
| Tags.FilterSplit | dashboard/templatetags/custom_tags.py:225-236 | the loop keeps the input order: filtering a concatenation is the concatenation of the filtered parts |
| Tags.FilterRelated | dashboard/templatetags/custom_tags.py:225-236 | the loop computes the related datasets |
| Tags.TabFallback | dashboard/templatetags/custom_tags.py:182-249 | no tab data gives nothing; when the tab's normalised name equals the key's, or both name a seaport or airport and the tab has more than two datasets, all its data is drawn; otherwise the related datasets when there are any, else all the data |
| Tags.FindSubTable | dashboard/templatetags/custom_tags.py:110-177 | the loop computes `Search` |
| Tags.TabDatasets | dashboard/templatetags/custom_tags.py:182-249 | the method computes the fallback |
| Tags.CollectDatasets | dashboard/templatetags/custom_tags.py:78-249 | the method computes `collect_datasets_from_sub_table` |
| Tags.OuterFallback | dashboard/templatetags/custom_tags.py:277-369 | no tab data gives nothing; when the tab's normalised name equals the key's, or names a seaport or airport and contains the key's, all its data is drawn; otherwise the related datasets when there are any, else all the data |
| Tags.ChartFallback | dashboard/templatetags/custom_tags.py:277-369 | the method computes the tag's own fallback |
| Tags.OuterFallbackOnlyWithoutSubTables | dashboard/templatetags/custom_tags.py:277-279 | with a `sub_tables` list the tag's own fallback never changes the search's answer |
| Tags.SearchSource | dashboard/templatetags/custom_tags.py:110-177 | found datasets come from some sub-table's `chart_data` |
| Tags.DrawnWhenTabHasData | dashboard/templatetags/custom_tags.py:182-369 | a tab with chart data always yields a chart |
| Tags.DrawnFromTab | dashboard/templatetags/custom_tags.py:78-372 | every drawn dataset belongs to the tab or one of its sub-tables |
| Tags.ChartContext.SetDefault | dashboard/templatetags/custom_tags.py:377-378 | `setdefault` sets only an absent key |
| Tags.WithDefaults | dashboard/templatetags/custom_tags.py:374-379 | existing entries are never overwritten; canvas id and title are added when absent, and nothing else |
| Tags.RenderChart | dashboard/templatetags/custom_tags.py:31-410 | the caller's own `chart` dict gains the canvas id and title defaults in place, whether or not anything is drawn; no dataset gives an empty result; otherwise the chart is drawn with the chosen datasets and the defaulted chart dict |
| Tags.WithDefaultsKeepsFirst | dashboard/templatetags/custom_tags.py:374-379 | a second call on the same chart dict changes nothing, so it keeps the first call's canvas id and title |

## Left out

- Reading spreadsheets (pandas and openpyxl) is not modelled: a sheet is a header list plus rows of cells. A cell is `None`/NaN, NaT (a blank cell of a date column), text, a number or a timestamp; a number or a timestamp carries the text `str()` prints for it. Which blank cells pandas reads as NaT rather than NaN depends on the column's inferred type and is the sheet's input, not modelled.
- Cells.Progress: a NaT progress cell is taken to fail `float()` with a `TypeError` and give 0, like a timestamp.
- Duplicate header names are not modelled: a column is identified by its position.
- Parsing text into a number (`float(raw)`) and into a date (`pd.to_datetime`) are parameters. Infinities, NaN produced by parsing and float rounding error are not modelled; `round` is half-to-even on exact reals.
- Cells.Progress: the number a cell holds is taken as an exact real, so float rounding error is not modelled.
- Context.ChartPercent: computed on exact reals. Python computes `(pending / allocated) * 100` in floats, so 23 of 40 gives 57.49999999999999 and rounds to 57, where the model gives 58.
- The database is a sequence of stored rows whose `create` may refuse with a message, given as a parameter. This stands for every exception `create` can raise.
  - The interview importer writes columns the model no longer has, so a refused create is a real case there.
- WhDataImport / DetailsImport: models.py defines neither `WHDataRow` nor `ClerkDetail`, so these two importers as written raise `ImportError` at their first line (wh_data_import.py:31, clerk_details_import.py:32). The model assumes the two models exist.
- The error path of `aggregate(Max)` is not modelled: that is the case where `max_order` stays 0 because the table cannot be queried.
- WhDataImport: the database commits each statement on its own. A unit created for a row whose later step fails stays in the unit table, and the model keeps it that way. Only that order of events is modelled.
- WhDataImport.FirstNamed: `filter(name=…).first()` is taken as the first unit in table order. The database's default ordering of business units is not modelled.
- Context.Recommendations: the query's `is_active=True` filter and its `order_by` are the database's; the model takes the query's result (or its failure) as input.
- `date.today()` is a parameter (the current year and month).
- The ORM queries of the project tracker are inputs: the distinct months, newest first, and each month's items in display order. The `project_type` filter is not modelled.
- `render_to_string`, `slugify` (the slug is a parameter), `json.dumps`, `mark_safe` and the debug `print` calls are not modelled.
- Tags.RenderChart: the `except` branch that renders an error box, and a template context that is not a dict, are not modelled.
- Chart dict values are modelled as strings.
- Case folding is ASCII only, and `str.isdigit` accepts ASCII digits only.
- Tags.Normalize: `bytes` values, which do have `strip`, are not modelled; `Other` stands only for values without it.
- These getters of context_helpers.py only copy ORM rows into dicts and are not modelled: regions, warehouse metrics apart from the chart percentage and badge colour, clerk lists, weekly, progress and challenges lists. The system-status colour lookup (context_helpers.py:117-140) is also left out.
- The source and its documentation disagree in several places; the model follows the code:
  - The badge colour checks "active" before "partial" (context_helpers.py:191-196), so a name containing both is green.
  - The chart search tries id and then title for each sub-table in turn (custom_tags.py:111-177). It is not one pass over all ids followed by one pass over all titles.
  - Every importer bumps `max_order` before the create attempt, so every failed create uses up an order number. This is true of all importers, not only progress status.
  - The progress-status importer falls back to the first sheet too (progress_status_import.py:54-69).
