/**
 * Header resolution, `_find_column` in every importer: candidates are tried in
 * the order given and, for each candidate, the headers in sheet order; the
 * first pair that matches wins. Three importers add a second, looser pass
 * (candidate contained in the header) that only runs when the strict pass
 * found nothing.
 */
module Columns {
  import opened Text
  import opened Cells

  /** Which candidate matched which header (both as positions). */
  datatype Hit = Hit(cand: nat, col: nat)

  /** The first header, in sheet order, that `hit` accepts for `cand`. */
  function HeaderFor(headers: seq<string>, cand: string, hit: (string, string) -> bool): (r: Option<nat>)
    ensures r.Some? ==> r.value < |headers| && hit(cand, headers[r.value])
    ensures r.Some? ==> forall j :: 0 <= j < r.value ==> !hit(cand, headers[j])
    ensures r.None? ==> forall j :: 0 <= j < |headers| ==> !hit(cand, headers[j])
  {
    if headers == [] then None
    else if hit(cand, headers[0]) then Some(0)
    else match HeaderFor(headers[1..], cand, hit)
      case None => None
      case Some(j) => Some(j + 1)
  }

  /** The nested first-match search: the earliest candidate that matches any
      header, with the earliest header it matches. */
  function Search(headers: seq<string>, cands: seq<string>, hit: (string, string) -> bool): (r: Option<Hit>)
    ensures r.Some? ==> r.value.cand < |cands| && r.value.col < |headers|
    ensures r.Some? ==> hit(cands[r.value.cand], headers[r.value.col])
    ensures r.Some? ==> forall k, j :: 0 <= k < r.value.cand && 0 <= j < |headers| ==> !hit(cands[k], headers[j])
    ensures r.Some? ==> forall j :: 0 <= j < r.value.col ==> !hit(cands[r.value.cand], headers[j])
    ensures r.None? ==> forall k, j :: 0 <= k < |cands| && 0 <= j < |headers| ==> !hit(cands[k], headers[j])
  {
    if cands == [] then None
    else match HeaderFor(headers, cands[0], hit)
      case Some(j) => Some(Hit(0, j))
      case None =>
        match Search(headers, cands[1..], hit)
        case None => None
        case Some(h) => Some(Hit(h.cand + 1, h.col))
  }

  /** The header position a search settles on. */
  function Column(h: Option<Hit>): Option<nat>
  {
    match h
    case None => None
    case Some(x) => Some(x.col)
  }

  /** An exact pass, then a loose pass only when the exact pass found nothing. */
  function TwoPass(headers: seq<string>, cands: seq<string>,
                   exact: (string, string) -> bool, loose: (string, string) -> bool): (r: Option<Hit>)
    ensures (exists k, j :: 0 <= k < |cands| && 0 <= j < |headers| && exact(cands[k], headers[j])) ==>
              r == Search(headers, cands, exact)
    ensures (forall k, j :: 0 <= k < |cands| && 0 <= j < |headers| ==> !exact(cands[k], headers[j])) ==>
              r == Search(headers, cands, loose)
    ensures r.Some? ==> r.value.cand < |cands| && r.value.col < |headers|
    ensures r.Some? ==> exact(cands[r.value.cand], headers[r.value.col]) || loose(cands[r.value.cand], headers[r.value.col])
    ensures r.None? <==>
              (forall k, j :: 0 <= k < |cands| && 0 <= j < |headers| ==> !exact(cands[k], headers[j]) && !loose(cands[k], headers[j]))
  {
    var e := Search(headers, cands, exact);
    if e.Some? then e else Search(headers, cands, loose)
  }

  // ---------------------------------------------------------------------
  // The weekly-tracker and potential-challenges matching key

  /** Deletes the characters the weekly and challenges keys ignore. */
  function Scrub(s: string): (r: string)
    ensures ' ' !in r && '%' !in r && '(' !in r && ')' !in r
  {
    var a := Delete(s, ' ');
    var b := Delete(a, '%');
    DeleteKeeps(a, '%', ' ');
    var c := Delete(b, '(');
    DeleteKeeps(b, '(', ' ');
    DeleteKeeps(b, '(', '%');
    var d := Delete(c, ')');
    DeleteKeeps(c, ')', ' ');
    DeleteKeeps(c, ')', '%');
    DeleteKeeps(c, ')', '(');
    d
  }

  /** `_normalize_col(s).lower()` with spaces, "%", "(" and ")" deleted. */
  function MatchKey(s: string): (r: string)
    ensures ' ' !in r && '%' !in r && '(' !in r && ')' !in r
  {
    Scrub(Lower(Strip(s)))
  }

  predicate KeyEqual(cand: string, header: string)
  {
    MatchKey(cand) != [] && MatchKey(header) == MatchKey(cand)
  }

  predicate KeyWithin4(cand: string, header: string)
  {
    |MatchKey(cand)| >= 4 && Contains(MatchKey(header), MatchKey(cand))
  }

  predicate KeyWithin3(cand: string, header: string)
  {
    |MatchKey(cand)| >= 3 && Contains(MatchKey(header), MatchKey(cand))
  }

  /** `_find_column` of the weekly tracker: loose pass for keys of length at least 4. */
  function FindWeekly(headers: seq<string>, cands: seq<string>): Option<nat>
  {
    Column(TwoPass(headers, cands, KeyEqual, KeyWithin4))
  }

  /** `_find_column` of the potential-challenges importer: loose pass for keys of length at least 3. */
  function FindChallenges(headers: seq<string>, cands: seq<string>): Option<nat>
  {
    Column(TwoPass(headers, cands, KeyEqual, KeyWithin3))
  }

  /** A weekly lookup settles on a header only when some candidate's key equals
      the header's key or, failing every such equality, a key of at least four
      characters lies inside the header's key. */
  lemma FindWeeklySound(headers: seq<string>, cands: seq<string>)
    ensures var r := FindWeekly(headers, cands);
      && (r.Some? ==>
            r.value < |headers| &&
            exists k :: 0 <= k < |cands| && (KeyEqual(cands[k], headers[r.value]) || KeyWithin4(cands[k], headers[r.value])))
      && (r.None? <==> forall k, j :: 0 <= k < |cands| && 0 <= j < |headers| ==>
            !KeyEqual(cands[k], headers[j]) && !KeyWithin4(cands[k], headers[j]))
  {
    var t := TwoPass(headers, cands, KeyEqual, KeyWithin4);
    if t.Some? {
      assert KeyEqual(cands[t.value.cand], headers[t.value.col]) || KeyWithin4(cands[t.value.cand], headers[t.value.col]);
    }
  }

  /** A candidate whose key is empty never matches, in either pass. */
  lemma EmptyKeyNeverMatches(cand: string, header: string)
    requires MatchKey(cand) == []
    ensures !KeyEqual(cand, header) && !KeyWithin3(cand, header) && !KeyWithin4(cand, header)
  {
  }

  /** The characters the weekly and challenges keys ignore. */
  predicate Decoration(d: char)
  {
    d == ' ' || d == '%' || d == '(' || d == ')'
  }

  lemma ScrubSplit(x: string, y: string)
    ensures Scrub(x + y) == Scrub(x) + Scrub(y)
  {
    var a := Delete(x, ' ');
    var b := Delete(a, '%');
    var c := Delete(b, '(');
    var a' := Delete(y, ' ');
    var b' := Delete(a', '%');
    var c' := Delete(b', '(');
    DeleteSplit(x, y, ' ');
    DeleteSplit(a, a', '%');
    DeleteSplit(b, b', '(');
    DeleteSplit(c, c', ')');
  }

  lemma ScrubDecoration(d: char)
    requires Decoration(d)
    ensures Scrub([d]) == []
  {
    DeleteSingle(d);
    if d != ' ' { DeleteAbsent([d], ' '); }
    if d != '%' && d != ' ' { DeleteAbsent([d], '%'); }
    if d == ')' { DeleteAbsent([d], '('); }
  }

  /** A decoration character inside a header, with non-space text on both
      sides, does not change the header's key. */
  lemma KeyIgnoresInnerDecoration(a: string, d: char, b: string)
    requires Decoration(d)
    requires a != [] && !IsSpace(a[0]) && b != [] && !IsSpace(b[|b| - 1])
    ensures MatchKey(a + [d] + b) == MatchKey(a + b)
  {
    calc {
      MatchKey(a + [d] + b);
      { StrippedInner(a, d, b); }
      Scrub(Lower(a + [d] + b));
      { LowerInner(a, d, b); }
      Scrub(Lower(a) + [d] + Lower(b));
      { ScrubInner(Lower(a), d, Lower(b)); }
      Scrub(Lower(a)) + Scrub(Lower(b));
      { ScrubSplit(Lower(a), Lower(b)); }
      Scrub(Lower(a) + Lower(b));
      { LowerSplit(a, b); }
      Scrub(Lower(a + b));
      { StrippedJoin(a, b); }
      MatchKey(a + b);
    }
  }

  lemma StrippedInner(a: string, d: char, b: string)
    requires a != [] && !IsSpace(a[0]) && b != [] && !IsSpace(b[|b| - 1])
    ensures Strip(a + [d] + b) == a + [d] + b
  {
    assert a + [d] + b == a + ([d] + b);
    StrippedJoin(a, [d] + b);
  }

  lemma LowerInner(a: string, d: char, b: string)
    requires Decoration(d)
    ensures Lower(a + [d] + b) == Lower(a) + [d] + Lower(b)
  {
    LowerSplit(a + [d], b);
    LowerSplit(a, [d]);
    LowerDecoration(d);
  }

  lemma ScrubInner(x: string, d: char, y: string)
    requires Decoration(d)
    ensures Scrub(x + [d] + y) == Scrub(x) + Scrub(y)
  {
    ScrubSplit(x + [d], y);
    ScrubSplit(x, [d]);
    ScrubDecoration(d);
  }

  /** A decoration character at the end of a header, after non-space text, does
      not change the header's key. */
  lemma KeyIgnoresTrailingDecoration(a: string, d: char)
    requires Decoration(d) && d != ' '
    requires a != [] && !IsSpace(a[0]) && !IsSpace(a[|a| - 1])
    ensures MatchKey(a + [d]) == MatchKey(a)
  {
    calc {
      MatchKey(a + [d]);
      { StrippedJoin(a, [d]); }
      Scrub(Lower(a + [d]));
      { LowerSplit(a, [d]); LowerDecoration(d); }
      Scrub(Lower(a) + [d]);
      { ScrubSplit(Lower(a), [d]); ScrubDecoration(d); }
      Scrub(Lower(a));
      { StripUnchanged(a); }
      MatchKey(a);
    }
  }

  lemma LowerDecoration(d: char)
    requires Decoration(d)
    ensures Lower([d]) == [d]
  {
  }

  /** Text that starts with `a` and ends with `b`, both free of white space at
      that end, is already stripped. */
  lemma StrippedJoin(a: string, b: string)
    requires a != [] && !IsSpace(a[0]) && b != [] && !IsSpace(b[|b| - 1])
    ensures Strip(a + b) == a + b
  {
    var t := a + b;
    assert t[0] == a[0] && t[|t| - 1] == b[|b| - 1];
    StripUnchanged(t);
  }

  /** A header written as a word followed by " (%)" or " %" has the key of the
      word alone (so "Progress (%)", "Progress %" and "Progress" share a key). */
  lemma PercentHeaderKey(w: string)
    requires w != [] && !IsSpace(w[0]) && !IsSpace(w[|w| - 1])
    ensures MatchKey(w + " (%)") == MatchKey(w)
    ensures MatchKey(w + " %") == MatchKey(w)
  {
    ParenPercentKey(w);
    SpacePercentKey(w);
  }

  lemma ParenPercentKey(w: string)
    requires w != [] && !IsSpace(w[0]) && !IsSpace(w[|w| - 1])
    ensures MatchKey(w + " (%)") == MatchKey(w)
  {
    var open := w + ['('];
    calc {
      MatchKey(w + " (%)");
      { assert w + " (%)" == w + [' '] + "(%)"; }
      MatchKey(w + [' '] + "(%)");
      { KeyIgnoresInnerDecoration(w, ' ', "(%)"); }
      MatchKey(w + "(%)");
      { assert w + "(%)" == open + ['%'] + ")"; }
      MatchKey(open + ['%'] + ")");
      { KeyIgnoresInnerDecoration(open, '%', ")"); }
      MatchKey(open + ")");
      { assert open + ")" == w + ['('] + ")"; }
      MatchKey(w + ['('] + ")");
      { KeyIgnoresInnerDecoration(w, '(', ")"); }
      MatchKey(w + ")");
      { assert w + ")" == w + [')']; KeyIgnoresTrailingDecoration(w, ')'); }
      MatchKey(w);
    }
  }

  lemma SpacePercentKey(w: string)
    requires w != [] && !IsSpace(w[0]) && !IsSpace(w[|w| - 1])
    ensures MatchKey(w + " %") == MatchKey(w)
  {
    calc {
      MatchKey(w + " %");
      { assert w + " %" == w + [' '] + "%"; }
      MatchKey(w + [' '] + "%");
      { KeyIgnoresInnerDecoration(w, ' ', "%"); }
      MatchKey(w + "%");
      { assert w + "%" == w + ['%']; KeyIgnoresTrailingDecoration(w, '%'); }
      MatchKey(w);
    }
  }

  /** A header and a candidate with the same non-empty key resolve to each other. */
  lemma SameKeyResolves(header: string, cand: string)
    requires MatchKey(cand) != [] && MatchKey(header) == MatchKey(cand)
    ensures FindWeekly([header], [cand]) == Some(0)
    ensures FindChallenges([header], [cand]) == Some(0)
  {
    assert KeyEqual(cand, header);
  }

  /** A header such as "Progress (%)" resolves for the candidate "Progress %". */
  lemma PercentHeaderResolves(w: string)
    requires w != [] && !IsSpace(w[0]) && !IsSpace(w[|w| - 1])
    requires MatchKey(w) != []
    ensures FindWeekly([w + " (%)"], [w + " %"]) == Some(0)
    ensures FindChallenges([w + " (%)"], [w + " %"]) == Some(0)
  {
    PercentHeaderKey(w);
    SameKeyResolves(w + " (%)", w + " %");
  }

  /** A word without decoration keeps its letters: its key is as long as it. */
  lemma KeyOfWord(w: string)
    requires Strip(w) == w
    requires forall k :: 0 <= k < |w| ==> !Decoration(w[k])
    ensures |MatchKey(w)| == |w|
  {
    var l := Lower(w);
    assert forall k :: 0 <= k < |l| ==> !Decoration(l[k]);
    DeleteAbsent(l, ' ');
    DeleteAbsent(l, '%');
    DeleteAbsent(l, '(');
    DeleteAbsent(l, ')');
  }

  // ---------------------------------------------------------------------
  // The progress-status matching key

  /** `_normalize_col(s).lower().replace(" ", "")`: "%" and parentheses are kept. */
  function SpaceFreeKey(s: string): (r: string)
    ensures ' ' !in r
  {
    Delete(Lower(Strip(s)), ' ')
  }

  /** The strict pass has no empty-candidate guard here. */
  predicate SpaceFreeEqual(cand: string, header: string)
  {
    SpaceFreeKey(header) == SpaceFreeKey(cand)
  }

  predicate SpaceFreeWithin3(cand: string, header: string)
  {
    |SpaceFreeKey(cand)| >= 3 && Contains(SpaceFreeKey(header), SpaceFreeKey(cand))
  }

  /** `_find_column` of the progress-status importer. */
  function FindSpaceFree(headers: seq<string>, cands: seq<string>): Option<nat>
  {
    Column(TwoPass(headers, cands, SpaceFreeEqual, SpaceFreeWithin3))
  }

  /** Keeping "%" tells "Progress %" from "Progress" in the progress-status
      importer, where the weekly key treats them alike. */
  lemma PercentKeptInSpaceFreeKey(w: string)
    requires w != [] && !IsSpace(w[0]) && !IsSpace(w[|w| - 1]) && '%' !in w
    ensures '%' in SpaceFreeKey(w + " %")
    ensures '%' !in SpaceFreeKey(w)
    ensures MatchKey(w + " %") == MatchKey(w)
  {
    SpacePercentKey(w);
    PercentSurvives(w + " %");
    StripUnchanged(w);
    PercentAbsent(w);
  }

  lemma PercentSurvives(s: string)
    requires |s| >= 2 && s[|s| - 1] == '%' && !IsSpace(s[0])
    ensures '%' in SpaceFreeKey(s)
  {
    StripUnchanged(s);
    var l := Lower(s);
    assert l[|s| - 1] == '%';
    DeleteKeepsOther(l, ' ', |s| - 1);
  }

  lemma PercentAbsent(s: string)
    requires Strip(s) == s && '%' !in s
    ensures '%' !in SpaceFreeKey(s)
  {
    var l := Lower(s);
    assert forall k :: 0 <= k < |l| ==> l[k] != '%';
    DeleteKeeps(l, ' ', '%');
  }

  // ---------------------------------------------------------------------
  // Exact, trimmed, case-insensitive resolution (clerk interview, clerk details, WH data)

  predicate SameName(cand: string, header: string)
  {
    Lower(Strip(header)) == Lower(Strip(cand))
  }

  /** `_find_column` of the clerk-interview, clerk-details and WH-data importers. */
  function FindExact(headers: seq<string>, cands: seq<string>): (r: Option<nat>)
    ensures r.Some? ==> r.value < |headers|
    ensures r.None? <==> forall k, j :: 0 <= k < |cands| && 0 <= j < |headers| ==> !SameName(cands[k], headers[j])
  {
    Column(Search(headers, cands, SameName))
  }

  /** When candidate `k` matches some header and no earlier candidate matches
      any, the search settles on candidate `k` and its first matching header. */
  lemma SearchSettlesOn(headers: seq<string>, cands: seq<string>, hit: (string, string) -> bool, k: nat, j: nat)
    requires k < |cands| && j < |headers| && hit(cands[k], headers[j])
    requires forall k', j' :: 0 <= k' < k && 0 <= j' < |headers| ==> !hit(cands[k'], headers[j'])
    ensures Search(headers, cands, hit).Some?
    ensures Search(headers, cands, hit).value.cand == k
    ensures Column(Search(headers, cands, hit)) == HeaderFor(headers, cands[k], hit)
  {
    var s := Search(headers, cands, hit);
    var h := HeaderFor(headers, cands[k], hit);
    assert s.Some? && h.Some?;
  }

  /** Candidate order is precedence: when an earlier alias names some header,
      no later alias is consulted, wherever its header stands. */
  lemma EarlierAliasWins(headers: seq<string>, cands: seq<string>, k: nat, j: nat)
    requires k < |cands| && j < |headers| && SameName(cands[k], headers[j])
    requires forall k', j' :: 0 <= k' < k && 0 <= j' < |headers| ==> !SameName(cands[k'], headers[j'])
    ensures FindExact(headers, cands) == HeaderFor(headers, cands[k], SameName)
    ensures FindExact(headers, cands).Some?
  {
    SearchSettlesOn(headers, cands, SameName, k, j);
  }

  // ---------------------------------------------------------------------
  // The `found_cols` loop of the clerk importers

  /** The column lookup of the clerk importers, as a value. */
  function FindIn(headers: seq<string>): seq<string> -> Option<nat>
  {
    cands => FindExact(headers, cands)
  }

  /** The column map the `found_cols` loop builds, entry by entry: a field is
      recorded only when `find` resolves one of its aliases. */
  function Resolved(colMap: seq<(string, seq<string>)>, find: seq<string> -> Option<nat>): map<string, nat>
    decreases |colMap|
  {
    if colMap == [] then map[]
    else
      var before := Resolved(colMap[..|colMap| - 1], find);
      var (field, cands) := colMap[|colMap| - 1];
      match find(cands)
      case None => before
      case Some(c) => before[field := c]
  }

  /** The map after one more entry: that entry's field set when it resolves. */
  lemma ResolvedSnoc(colMap: seq<(string, seq<string>)>, i: nat, find: seq<string> -> Option<nat>)
    requires i < |colMap|
    ensures Resolved(colMap[..i + 1], find)
         == match find(colMap[i].1)
            case None => Resolved(colMap[..i], find)
            case Some(c) => Resolved(colMap[..i], find)[colMap[i].0 := c]
  {
    assert colMap[..i + 1][..i] == colMap[..i];
  }

  /** A field is in the map exactly when one of its entries resolves, and it
      then holds the column of that entry. */
  lemma {:induction false} ResolvedAt(colMap: seq<(string, seq<string>)>, find: seq<string> -> Option<nat>, i: nat)
    requires i < |colMap|
    requires forall i' :: 0 <= i' < |colMap| && i' != i ==> colMap[i'].0 != colMap[i].0
    ensures colMap[i].0 in Resolved(colMap, find) <==> find(colMap[i].1).Some?
    ensures colMap[i].0 in Resolved(colMap, find) ==>
              Resolved(colMap, find)[colMap[i].0] == find(colMap[i].1).value
    decreases |colMap|
  {
    var n := |colMap| - 1;
    var front := colMap[..n];
    var f := colMap[i].0;
    if i < n {
      assert front[i] == colMap[i];
      assert forall i' :: 0 <= i' < |front| && i' != i ==> front[i'].0 != front[i].0 by {
        assert forall i' :: 0 <= i' < |front| ==> front[i'] == colMap[i'];
      }
      ResolvedAt(front, find, i);
      assert colMap[n].0 != f;
    } else {
      assert forall i' :: 0 <= i' < |front| ==> front[i'].0 != f by {
        assert forall i' :: 0 <= i' < |front| ==> front[i'] == colMap[i'];
      }
      ResolvedAbsent(front, find, f);
    }
  }

  /** A field no entry names is not in the map. */
  lemma {:induction false} ResolvedAbsent(colMap: seq<(string, seq<string>)>, find: seq<string> -> Option<nat>, f: string)
    requires forall i :: 0 <= i < |colMap| ==> colMap[i].0 != f
    ensures f !in Resolved(colMap, find)
    decreases |colMap|
  {
    if colMap != [] {
      ResolvedAbsent(colMap[..|colMap| - 1], find, f);
    }
  }

  /** Every column the map records is a header position. */
  lemma {:induction false} ResolvedInRange(headers: seq<string>, colMap: seq<(string, seq<string>)>)
    ensures forall f :: f in Resolved(colMap, FindIn(headers)) ==> Resolved(colMap, FindIn(headers))[f] < |headers|
    decreases |colMap|
  {
    if colMap != [] {
      ResolvedInRange(headers, colMap[..|colMap| - 1]);
      var r := FindExact(headers, colMap[|colMap| - 1].1);
      assert FindIn(headers)(colMap[|colMap| - 1].1) == r;
    }
  }

  /** The `found_cols` loop. */
  method ResolveFields(headers: seq<string>, colMap: seq<(string, seq<string>)>) returns (found: map<string, nat>)
    ensures found == Resolved(colMap, FindIn(headers))
    ensures forall f :: f in found ==> found[f] < |headers|
  {
    found := map[];
    var i := 0;
    while i < |colMap|
      invariant 0 <= i <= |colMap|
      invariant found == Resolved(colMap[..i], FindIn(headers))
    {
      var (field, cands) := colMap[i];
      var c := FindExact(headers, cands);
      ResolvedSnoc(colMap, i, FindIn(headers));
      assert FindIn(headers)(cands) == c;
      if c.Some? {
        found := found[field := c.value];
      }
      i := i + 1;
    }
    assert colMap[..i] == colMap;
    ResolvedInRange(headers, colMap);
  }

  /** `found_cols.get(field)`. */
  function Lookup(found: map<string, nat>, field: string): (r: Option<nat>)
    ensures r.Some? <==> field in found
    ensures r.Some? ==> r.value == found[field]
  {
    if field in found then Some(found[field]) else None
  }

  /** `_normalize_col(get_val(field))` in the clerk importers: an unresolved
      field reads as "". */
  function Value(found: map<string, nat>, row: Row, field: string): (v: string)
    ensures field !in found ==> v == []
    ensures field in found ==> v == Clean(Get(row, found[field]))
  {
    Field(row, Lookup(found, field))
  }
}
