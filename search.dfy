/**
 * The search orchestration (starter/search.py, class NEOSearcher): date selection over the
 * date index, the filters applied left to right, then truncation to the requested number.
 */
module Searcher {
  import opened Wrappers
  import opened Models
  import opened Database
  import opened Filters
  import opened Queries

  // ---------------------------------------------------------------------------
  // String order.
  // ---------------------------------------------------------------------------

  /** `a <= b` on strings: lexicographic by code point, a proper prefix coming first. */
  predicate LexLe(a: string, b: string)
    decreases |a|
  {
    if a == [] then true
    else if b == [] then false
    else if a[0] != b[0] then a[0] < b[0]
    else LexLe(a[1..], b[1..])
  }

  lemma {:induction false} LexLeAntisymmetric(a: string, b: string)
    requires LexLe(a, b) && LexLe(b, a)
    ensures a == b
    decreases |a|
  {
    if a != [] && b != [] {
      LexLeAntisymmetric(a[1..], b[1..]);
      assert a == [a[0]] + a[1..] && b == [b[0]] + b[1..];
    }
  }

  lemma {:induction false} LexLeTransitive(a: string, b: string, c: string)
    requires LexLe(a, b) && LexLe(b, c)
    ensures LexLe(a, c)
    decreases |a|
  {
    if a != [] && b != [] && c != [] && a[0] == b[0] && b[0] == c[0] {
      LexLeTransitive(a[1..], b[1..], c[1..]);
    }
  }

  lemma {:induction false} LexLeReflexive(a: string)
    ensures LexLe(a, a)
    decreases |a|
  {
    if a != [] {
      LexLeReflexive(a[1..]);
    }
  }

  // ---------------------------------------------------------------------------
  // Date selection.
  // ---------------------------------------------------------------------------

  /** `start <= k <= end` on strings. */
  predicate InRange(k: Date, start: Date, end: Date) {
    LexLe(start, k) && LexLe(k, end)
  }

  /** The lists of the keys between the bounds, joined in key order. */
  function RangeCandidates(m: map<Date, seq<NearEarthObject>>, keys: seq<Date>, start: Date, end: Date): seq<NearEarthObject>
    decreases |keys|
  {
    if keys == [] then []
    else
      var k := keys[|keys| - 1];
      RangeCandidates(m, keys[..|keys| - 1], start, end) + (if k in m && InRange(k, start, end) then m[k] else [])
  }

  /**
   * The objects the date selectors pick before any filter: the exact date's list when a
   * date is given, otherwise the range when both bounds are given, otherwise nothing.
   */
  function Candidates(idx: Index, q: Selectors): seq<NearEarthObject> {
    if q.dateSearch.Some? then Lookup(idx.orbits, q.dateSearch.value)
    else if q.startDate.Some? && q.endDate.Some? then RangeCandidates(idx.orbits, idx.dates, q.startDate.value, q.endDate.value)
    else []
  }

  /** An object is a range candidate exactly when it is in the list of a key between the bounds. */
  lemma {:induction false} RangeMembers(m: map<Date, seq<NearEarthObject>>, keys: seq<Date>, start: Date, end: Date, o: NearEarthObject)
    ensures o in RangeCandidates(m, keys, start, end) <==>
              exists i :: 0 <= i < |keys| && keys[i] in m && InRange(keys[i], start, end) && o in m[keys[i]]
    decreases |keys|
  {
    if keys != [] {
      var init := keys[..|keys| - 1];
      RangeMembers(m, init, start, end, o);
      if o in RangeCandidates(m, init, start, end) {
        var i :| 0 <= i < |init| && init[i] in m && InRange(init[i], start, end) && o in m[init[i]];
        assert keys[i] == init[i];
      }
      if exists i :: 0 <= i < |keys| && keys[i] in m && InRange(keys[i], start, end) && o in m[keys[i]] {
        var i :| 0 <= i < |keys| && keys[i] in m && InRange(keys[i], start, end) && o in m[keys[i]];
        if i < |init| {
          assert init[i] == keys[i];
        }
      }
    }
  }

  /** A range whose start lies after its end selects nothing. */
  lemma {:induction false} InvertedRangeEmpty(m: map<Date, seq<NearEarthObject>>, keys: seq<Date>, start: Date, end: Date)
    requires !LexLe(start, end)
    ensures RangeCandidates(m, keys, start, end) == []
    decreases |keys|
  {
    if keys != [] {
      InvertedRangeEmpty(m, keys[..|keys| - 1], start, end);
      var k := keys[|keys| - 1];
      if InRange(k, start, end) {
        LexLeTransitive(start, k, end);
      }
    }
  }

  /** Over a well-formed store, the range from a date to itself is that date's list. */
  lemma {:induction false} OneDayRange(m: map<Date, seq<NearEarthObject>>, keys: seq<Date>, d: Date)
    requires forall i, j :: 0 <= i < j < |keys| ==> keys[i] != keys[j]
    ensures RangeCandidates(m, keys, d, d) == if d in keys && d in m then m[d] else []
    decreases |keys|
  {
    if keys != [] {
      var init, k := keys[..|keys| - 1], keys[|keys| - 1];
      OneDayRange(m, init, d);
      assert keys == init + [k];
      if InRange(k, d, d) {
        LexLeAntisymmetric(k, d);
        assert d !in init;
      } else if k == d {
        LexLeReflexive(d);
      }
    }
  }

  // ---------------------------------------------------------------------------
  // Filters and truncation.
  // ---------------------------------------------------------------------------

  /** The filter strings applied in list order, each to the previous output. */
  function ApplyFilters(fs: seq<string>, s: seq<NearEarthObject>, toFloat: string -> Option<real>): Result<seq<NearEarthObject>, FilterError>
    decreases |fs|
  {
    if fs == [] then Ok(s)
    else match ParseFilter(fs[0])
      case None => Err(MalformedFilter(fs[0]))
      case Some(p) =>
        match ApplyFilter(p.field, p.operation, p.value, s, toFloat)
        case Err(e) => Err(e)
        case Ok(r) => ApplyFilters(fs[1..], r, toFloat)
  }

  /** Filtering a longer list of strings is filtering by the first part, then by the rest. */
  lemma {:induction false} ApplyFiltersAppend(fs: seq<string>, gs: seq<string>, s: seq<NearEarthObject>, toFloat: string -> Option<real>)
    ensures ApplyFilters(fs + gs, s, toFloat)
         == match ApplyFilters(fs, s, toFloat)
            case Err(e) => Err(e)
            case Ok(r) => ApplyFilters(gs, r, toFloat)
    decreases |fs|
  {
    if fs == [] {
      assert fs + gs == gs;
    } else {
      assert (fs + gs)[0] == fs[0] && (fs + gs)[1..] == fs[1..] + gs;
      match ParseFilter(fs[0])
      case None =>
      case Some(p) =>
        match ApplyFilter(p.field, p.operation, p.value, s, toFloat)
        case Err(e) =>
        case Ok(r) => ApplyFiltersAppend(fs[1..], gs, r, toFloat);
    }
  }

  /** Filtering keeps an order-preserving subsequence of its input. */
  lemma {:induction false} ApplyFiltersSubsequence(fs: seq<string>, s: seq<NearEarthObject>, toFloat: string -> Option<real>)
    requires ApplyFilters(fs, s, toFloat).Ok?
    ensures Subsequence(ApplyFilters(fs, s, toFloat).value, s)
    decreases |fs|
  {
    if fs == [] {
      SubsequenceRefl(s);
    } else {
      var p := ParseFilter(fs[0]).value;
      var r := ApplyFilter(p.field, p.operation, p.value, s, toFloat).value;
      ApplyFilterSubsequence(p.field, p.operation, p.value, s, toFloat);
      ApplyFiltersSubsequence(fs[1..], r, toFloat);
      SubsequenceTransitive(ApplyFilters(fs, s, toFloat).value, r, s);
    }
  }

  /**
   * Filtering an empty list yields it unchanged unless a filter string does not match,
   * which stops the search with that string.
   */
  lemma {:induction false} ApplyFiltersEmpty(fs: seq<string>, toFloat: string -> Option<real>)
    ensures var r := ApplyFilters(fs, [], toFloat);
            && (r.Ok? ==> r.value == [])
            && (r.Ok? <==> forall i :: 0 <= i < |fs| ==> ParseFilter(fs[i]).Some?)
            && (r.Err? ==> r.error.MalformedFilter? && r.error.text in fs && ParseFilter(r.error.text).None?)
    decreases |fs|
  {
    if fs != [] {
      ApplyFiltersEmpty(fs[1..], toFloat);
      if ParseFilter(fs[0]).Some? {
        var p := ParseFilter(fs[0]).value;
        ApplyFilterOutcomes(p.field, p.operation, p.value, [], toFloat);
        assert forall i :: 1 <= i < |fs| ==> fs[i] == fs[1..][i - 1];
      }
    }
  }

  /** The same two filters run in either order give the same result when both have a criterion. */
  lemma FiltersCommute(a: string, b: string, s: seq<NearEarthObject>, toFloat: string -> Option<real>)
    requires ParseFilter(a).Some? && ParseFilter(b).Some?
    requires var p, q := ParseFilter(a).value, ParseFilter(b).value;
             CriterionOf(p.field, p.operation, p.value, toFloat).Some? && CriterionOf(q.field, q.operation, q.value, toFloat).Some?
    ensures ApplyFilters([a, b], s, toFloat) == ApplyFilters([b, a], s, toFloat)
  {
    var p, q := ParseFilter(a).value, ParseFilter(b).value;
    var c, d := CriterionOf(p.field, p.operation, p.value, toFloat).value, CriterionOf(q.field, q.operation, q.value, toFloat).value;
    ApplyFilterSelects(p.field, p.operation, p.value, s, toFloat);
    ApplyFilterSelects(q.field, q.operation, q.value, s, toFloat);
    ApplyFilterSelects(p.field, p.operation, p.value, Select(s, d), toFloat);
    ApplyFilterSelects(q.field, q.operation, q.value, Select(s, c), toFloat);
    SelectCommutes(s, c, d);
    assert [a, b][1..] == [b] && [b, a][1..] == [a];
    assert [b][1..] == [] && [a][1..] == [];
  }

  function Min(a: int, b: int): int {
    if a <= b then a else b
  }

  /**
   * The first `number` elements when a number is given and the list is longer, so none
   * for a negative number; the whole list otherwise.
   */
  function Truncate(s: seq<NearEarthObject>, number: Option<int>): (r: seq<NearEarthObject>)
    ensures r <= s
    ensures number.None? ==> r == s
    ensures number.Some? ==> |r| == Min(|s|, if number.value < 0 then 0 else number.value)
  {
    if number.None? then s
    else if |s| > number.value then (if number.value < 0 then [] else s[..number.value])
    else s
  }

  // ---------------------------------------------------------------------------
  // The search.
  // ---------------------------------------------------------------------------

  /** What a search over the indexes `idx` returns for query `q`. */
  function Search(idx: Index, q: Selectors, toFloat: string -> Option<real>): Result<seq<NearEarthObject>, FilterError> {
    var candidates := Candidates(idx, q);
    var filtered := if q.filters.Some? then ApplyFilters(q.filters.value, candidates, toFloat) else Ok(candidates);
    match filtered
    case Err(e) => Err(e)
    case Ok(r) => Ok(Truncate(r, q.number))
  }

  /** A search result is an order-preserving subsequence of the date candidates. */
  lemma SearchSubsequence(idx: Index, q: Selectors, toFloat: string -> Option<real>)
    requires Search(idx, q, toFloat).Ok?
    ensures Subsequence(Search(idx, q, toFloat).value, Candidates(idx, q))
  {
    var candidates := Candidates(idx, q);
    var filtered := if q.filters.Some? then ApplyFilters(q.filters.value, candidates, toFloat).value else candidates;
    if q.filters.Some? {
      ApplyFiltersSubsequence(q.filters.value, candidates, toFloat);
    } else {
      SubsequenceRefl(candidates);
    }
    PrefixSubsequence(Truncate(filtered, q.number), filtered);
    SubsequenceTransitive(Search(idx, q, toFloat).value, filtered, candidates);
  }

  /** The requested kind of result object plays no part in a search. */
  lemma SearchIgnoresReturnObject(idx: Index, q: Selectors, toFloat: string -> Option<real>, returnObject: Option<string>)
    ensures Search(idx, q.(returnObject := returnObject), toFloat) == Search(idx, q, toFloat)
  {
  }

  /** Without a number the filtered list comes back whole; with one, a prefix of it. */
  lemma SearchTruncates(idx: Index, q: Selectors, n: int, toFloat: string -> Option<real>)
    requires q.number == Some(n) && Search(idx, q, toFloat).Ok?
    ensures Search(idx, q.(number := None), toFloat).Ok?
    ensures var whole := Search(idx, q.(number := None), toFloat).value;
            var part := Search(idx, q, toFloat).value;
            part <= whole && |part| == Min(|whole|, if n < 0 then 0 else n)
  {
  }

  /** An exact date takes precedence over the range bounds. */
  lemma ExactDatePrecedence(idx: Index, q: Selectors, start: Option<Date>, end: Option<Date>)
    requires q.dateSearch.Some?
    ensures Candidates(idx, q) == Lookup(idx.orbits, q.dateSearch.value)
    ensures Candidates(idx, q.(startDate := start, endDate := end)) == Candidates(idx, q)
  {
  }

  /**
   * Over a sound store, an exact-date search returns only objects of that date's list,
   * all of that date.
   */
  lemma ExactDateResults(idx: Index, q: Selectors, toFloat: string -> Option<real>, o: NearEarthObject)
    requires IndexSound(idx) && q.dateSearch.Some? && Search(idx, q, toFloat).Ok?
    requires o in Search(idx, q, toFloat).value
    ensures o in Lookup(idx.orbits, q.dateSearch.value) && o.closeApproachDate == q.dateSearch.value
  {
    SearchSubsequence(idx, q, toFloat);
    SubsequenceMembers(Search(idx, q, toFloat).value, Candidates(idx, q), o);
  }

  /** Over a sound store, a range search returns only objects dated within the bounds. */
  lemma RangeResults(idx: Index, q: Selectors, toFloat: string -> Option<real>, o: NearEarthObject)
    requires IndexSound(idx) && q.dateSearch.None? && q.startDate.Some? && q.endDate.Some?
    requires Search(idx, q, toFloat).Ok? && o in Search(idx, q, toFloat).value
    ensures InRange(o.closeApproachDate, q.startDate.value, q.endDate.value)
  {
    SearchSubsequence(idx, q, toFloat);
    SubsequenceMembers(Search(idx, q, toFloat).value, Candidates(idx, q), o);
    RangeMembers(idx.orbits, idx.dates, q.startDate.value, q.endDate.value, o);
  }

  /**
   * Without an exact date, a half-open range or no range selects nothing: the search
   * returns the empty list unless some filter string does not match.
   */
  lemma NoRangeEmpty(idx: Index, q: Selectors, toFloat: string -> Option<real>)
    requires q.dateSearch.None? && !(q.startDate.Some? && q.endDate.Some?)
    ensures Candidates(idx, q) == []
    ensures Search(idx, q, toFloat).Ok? ==> Search(idx, q, toFloat).value == []
    ensures Search(idx, q, toFloat).Err? ==> Search(idx, q, toFloat).error.MalformedFilter?
    ensures q.filters.None? ==> Search(idx, q, toFloat) == Ok([])
  {
    if q.filters.Some? {
      ApplyFiltersEmpty(q.filters.value, toFloat);
    }
  }

  /** Over a well-formed store, a one-day range finds what the exact date finds. */
  lemma OneDayRangeIsExactDate(idx: Index, q: Selectors, d: Date, toFloat: string -> Option<real>)
    requires IndexShaped(idx)
    requires q.dateSearch.None? && q.startDate == Some(d) && q.endDate == Some(d)
    ensures Search(idx, q, toFloat) == Search(idx, q.(dateSearch := Some(d)), toFloat)
  {
    OneDayRange(idx.orbits, idx.dates, d);
  }

  // ---------------------------------------------------------------------------
  // The searcher object.
  // ---------------------------------------------------------------------------

  /**
   * A searcher over a database. It reads the database's date index at each search, as the
   * source's aliases of the database's dictionaries do, so later loads are seen.
   */
  class NEOSearcher {
    const db: NEODatabase

    constructor (db: NEODatabase)
      ensures this.db == db
    {
      this.db := db;
    }

    /** Runs query `query`; the database is only read. */
    method GetObjects(query: Selectors, toFloat: string -> Option<real>) returns (r: Result<seq<NearEarthObject>, FilterError>)
      requires db.Valid()
      ensures r == Search(db.View(), query, toFloat)
    {
      var neoContainer := SelectByDate(query);
      var objects := neoContainer;
      if query.filters.Some? {
        var filtered := FilterInOrder(query.filters.value, objects, toFloat);
        if filtered.Err? {
          return Err(filtered.error);
        }
        objects := filtered.value;
      }
      if query.number.None? {
        return Ok(objects);
      }
      if |objects| > query.number.value {
        var finalObj := FirstItems(objects, query.number.value);
        return Ok(finalObj);
      }
      return Ok(objects);
    }

    /** The date selection: the exact date's list, the range's lists in key order, or nothing. */
    method SelectByDate(query: Selectors) returns (neoContainer: seq<NearEarthObject>)
      requires db.Valid()
      ensures neoContainer == Candidates(db.View(), query)
    {
      neoContainer := [];
      if query.dateSearch.Some? {
        if query.dateSearch.value in db.orbitDict {
          neoContainer := neoContainer + db.orbitDict[query.dateSearch.value];
        }
      } else if (query.startDate.Some? && query.endDate.None?) || (query.startDate.None? && query.endDate.Some?) {
      } else if query.startDate.Some? && query.endDate.Some? {
        var keys := db.dateKeys;
        for i := 0 to |keys|
          invariant neoContainer == RangeCandidates(db.orbitDict, keys[..i], query.startDate.value, query.endDate.value)
        {
          var neo := keys[i];
          assert keys[..i + 1][..i] == keys[..i];
          if LexLe(query.startDate.value, neo) && LexLe(neo, query.endDate.value) {
            neoContainer := neoContainer + db.orbitDict[neo];
          }
        }
        assert keys[..|keys|] == keys;
      }
    }
  }

  /** Splits each filter string and applies the filter it describes to the previous output. */
  method FilterInOrder(filters: seq<string>, candidates: seq<NearEarthObject>, toFloat: string -> Option<real>)
    returns (r: Result<seq<NearEarthObject>, FilterError>)
    ensures r == ApplyFilters(filters, candidates, toFloat)
  {
    var objects := candidates;
    for i := 0 to |filters|
      invariant ApplyFilters(filters[i..], objects, toFloat) == ApplyFilters(filters, candidates, toFloat)
    {
      var item := filters[i];
      assert filters[i..][0] == item && filters[i..][1..] == filters[i + 1..];
      var parts := ParseFilter(item);
      if parts.None? {
        return Err(MalformedFilter(item));
      }
      var filter := new Filter(parts.value.field, objects, parts.value.operation, parts.value.value);
      var applied := filter.Apply(objects, toFloat);
      if applied.Err? {
        return Err(applied.error);
      }
      objects := applied.value;
    }
    return Ok(objects);
  }

  /** The first `n` elements of a list longer than `n`, none when `n` is negative. */
  method FirstItems(objects: seq<NearEarthObject>, n: int) returns (finalObj: seq<NearEarthObject>)
    requires |objects| > n
    ensures finalObj == Truncate(objects, Some(n))
  {
    finalObj := [];
    // a range up to a negative number is empty
    var count := if n < 0 then 0 else n;
    for item := 0 to count
      invariant finalObj == objects[..item]
    {
      finalObj := finalObj + [objects[item]];
    }
  }
}
