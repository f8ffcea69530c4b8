/**
 * The filter predicate of the search engine (starter/search.py, class Filter) and the
 * split of a filter string "field:operation:value" into its three parts.
 */
module Filters {
  import opened Wrappers
  import opened Models

  // ---------------------------------------------------------------------------
  // Order-preserving selection.
  // ---------------------------------------------------------------------------

  /** `a` is `b` with some elements left out, the rest kept in order. */
  predicate Subsequence<T(==)>(a: seq<T>, b: seq<T>)
    decreases |b|
  {
    if a == [] then true
    else if b == [] then false
    else (a[|a| - 1] == b[|b| - 1] && Subsequence(a[..|a| - 1], b[..|b| - 1])) || Subsequence(a, b[..|b| - 1])
  }

  lemma {:induction false} SubsequenceMembers<T>(a: seq<T>, b: seq<T>, x: T)
    requires Subsequence(a, b) && x in a
    ensures x in b
    decreases |b|
  {
    var b' := b[..|b| - 1];
    assert b == b' + [b[|b| - 1]];
    if a[|a| - 1] == b[|b| - 1] && Subsequence(a[..|a| - 1], b') {
      assert a == a[..|a| - 1] + [a[|a| - 1]];
      if x != a[|a| - 1] {
        SubsequenceMembers(a[..|a| - 1], b', x);
      }
    } else {
      SubsequenceMembers(a, b', x);
    }
  }

  lemma {:induction false} SubsequenceTransitive<T>(a: seq<T>, b: seq<T>, c: seq<T>)
    requires Subsequence(a, b) && Subsequence(b, c)
    ensures Subsequence(a, c)
    decreases |c|
  {
    if a != [] {
      var a', b', c' := a[..|a| - 1], b[..|b| - 1], c[..|c| - 1];
      if b[|b| - 1] == c[|c| - 1] && Subsequence(b', c') {
        if a[|a| - 1] == b[|b| - 1] && Subsequence(a', b') {
          SubsequenceTransitive(a', b', c');
        } else {
          SubsequenceTransitive(a, b', c');
        }
      } else {
        SubsequenceTransitive(a, b, c');
      }
    }
  }

  lemma {:induction false} SubsequenceRefl<T>(a: seq<T>)
    ensures Subsequence(a, a)
    decreases |a|
  {
    if a != [] {
      SubsequenceRefl(a[..|a| - 1]);
    }
  }

  /** A prefix is a subsequence. */
  lemma {:induction false} PrefixSubsequence<T>(a: seq<T>, b: seq<T>)
    requires a <= b
    ensures Subsequence(a, b)
    decreases |b|
  {
    if |a| == |b| {
      assert a == b;
      SubsequenceRefl(a);
    } else {
      PrefixSubsequence(a, b[..|b| - 1]);
    }
  }

  // ---------------------------------------------------------------------------
  // Fields, operators and criteria.
  // ---------------------------------------------------------------------------

  /** ASCII lower-casing, as `str.lower` does on ASCII text. */
  function Lower(s: string): (r: string)
    ensures |r| == |s|
    ensures forall i :: 0 <= i < |s| ==> r[i] == LowerChar(s[i])
  {
    seq(|s|, i requires 0 <= i < |s| => LowerChar(s[i]))
  }

  function LowerChar(c: char): char {
    if 'A' <= c <= 'Z' then (c as int + 32) as char else c
  }

  /** Lower-casing twice is lower-casing once. */
  lemma LowerIdempotent(s: string)
    ensures Lower(Lower(s)) == Lower(s)
  {
  }

  /** The field a filter names, matched without regard to case. */
  datatype Field = Diameter | Distance | IsHazardous | Unrecognised

  function FieldOf(field: string): (f: Field)
    ensures f == Diameter <==> Lower(field) == "diameter"
    ensures f == Distance <==> Lower(field) == "distance"
    ensures f == IsHazardous <==> Lower(field) == "is_hazardous"
  {
    var name := Lower(field);
    if name == "diameter" then Diameter
    else if name == "distance" then Distance
    else if name == "is_hazardous" then IsHazardous
    else Unrecognised
  }

  /** Case does not matter in a field name. */
  lemma FieldCaseInsensitive(field: string)
    ensures FieldOf(Lower(field)) == FieldOf(field)
  {
    LowerIdempotent(field);
  }

  /** The comparison an operator token selects; every unlisted token means equality. */
  datatype Comparison = AtLeast | Above | AtMost | Below | EqualTo

  function ComparisonOf(operation: string): (c: Comparison)
    ensures c == AtLeast <==> operation == ">="
    ensures c == Above <==> operation == ">"
    ensures c == AtMost <==> operation == "<="
    ensures c == Below <==> operation == "<"
  {
    if operation == ">=" then AtLeast
    else if operation == ">" then Above
    else if operation == "<=" then AtMost
    else if operation == "<" then Below
    else EqualTo
  }

  function Compare(c: Comparison, x: real, bound: real): bool {
    match c
    case AtLeast => x >= bound
    case Above => x > bound
    case AtMost => x <= bound
    case Below => x < bound
    case EqualTo => x == bound
  }

  /** What a filter keeps: a bound on the diameter or the distance, or a hazard flag. */
  datatype Criterion =
    | DiameterIs(cmp: Comparison, bound: real)
    | DistanceIs(cmp: Comparison, bound: real)
    | HazardIs(flag: bool)

  predicate Keeps(c: Criterion, o: NearEarthObject) {
    match c
    case DiameterIs(cmp, bound) => Compare(cmp, o.diameterMinKm, bound)
    case DistanceIs(cmp, bound) => Compare(cmp, o.missDistanceKm, bound)
    case HazardIs(flag) => o.isPotentiallyHazardous == flag
  }

  /** The elements of `s` the criterion keeps, in order. */
  function Select(s: seq<NearEarthObject>, c: Criterion): seq<NearEarthObject>
    decreases |s|
  {
    if s == [] then []
    else Select(s[..|s| - 1], c) + (if Keeps(c, s[|s| - 1]) then [s[|s| - 1]] else [])
  }

  /** Selection keeps exactly the elements that meet the criterion. */
  lemma {:induction false} SelectMembers(s: seq<NearEarthObject>, c: Criterion, o: NearEarthObject)
    ensures o in Select(s, c) <==> o in s && Keeps(c, o)
    decreases |s|
  {
    if s != [] {
      assert s == s[..|s| - 1] + [s[|s| - 1]];
      SelectMembers(s[..|s| - 1], c, o);
    }
  }

  /** Selection preserves order. */
  lemma {:induction false} SelectSubsequence(s: seq<NearEarthObject>, c: Criterion)
    ensures Subsequence(Select(s, c), s)
    decreases |s|
  {
    if s != [] {
      var init := s[..|s| - 1];
      SelectSubsequence(init, c);
      if Keeps(c, s[|s| - 1]) {
        assert Select(s, c)[..|Select(s, c)| - 1] == Select(init, c);
      } else {
        assert Select(s, c) == Select(init, c);
      }
    }
  }

  /** When every element meets the criterion nothing is dropped. */
  lemma {:induction false} SelectAll(s: seq<NearEarthObject>, c: Criterion)
    requires forall i :: 0 <= i < |s| ==> Keeps(c, s[i])
    ensures Select(s, c) == s
    decreases |s|
  {
    if s != [] {
      SelectAll(s[..|s| - 1], c);
    }
  }

  /** Applying a selection twice is applying it once. */
  lemma SelectIdempotent(s: seq<NearEarthObject>, c: Criterion)
    ensures Select(Select(s, c), c) == Select(s, c)
  {
    var r := Select(s, c);
    forall i | 0 <= i < |r| ensures Keeps(c, r[i]) {
      SelectMembers(s, c, r[i]);
    }
    SelectAll(r, c);
  }

  /** Two selections in a row keep what meets both criteria, whichever runs first. */
  lemma {:induction false} SelectCommutes(s: seq<NearEarthObject>, c: Criterion, d: Criterion)
    ensures Select(Select(s, c), d) == Select(Select(s, d), c)
    decreases |s|
  {
    if s != [] {
      var init, last := s[..|s| - 1], s[|s| - 1];
      SelectCommutes(init, c, d);
      SelectSnoc(Select(init, c), if Keeps(c, last) then [last] else [], d);
      SelectSnoc(Select(init, d), if Keeps(d, last) then [last] else [], c);
    }
  }

  lemma SelectSnoc(s: seq<NearEarthObject>, t: seq<NearEarthObject>, c: Criterion)
    requires |t| <= 1
    ensures Select(s + t, c) == Select(s, c) + Select(t, c)
  {
    if t != [] {
      assert (s + t)[..|s + t| - 1] == s;
    } else {
      assert s + t == s;
    }
  }

  // ---------------------------------------------------------------------------
  // Filter strings.
  // ---------------------------------------------------------------------------

  /** The three parts of a filter string. */
  datatype FilterParts = FilterParts(field: string, operation: string, value: string)

  function Count(s: string, c: char): nat
    decreases |s|
  {
    if s == [] then 0 else Count(s[..|s| - 1], c) + (if s[|s| - 1] == c then 1 else 0)
  }

  /** The position of the last `c` in `s`. */
  function LastIndex(s: string, c: char): (i: nat)
    requires c in s
    ensures i < |s| && s[i] == c && c !in s[i + 1..]
    decreases |s|
  {
    if s[|s| - 1] == c then |s| - 1
    else
      assert s[..|s| - 1] + [s[|s| - 1]] == s;
      LastIndex(s[..|s| - 1], c)
  }

  lemma {:induction false} CountPositive(s: string, c: char)
    ensures Count(s, c) > 0 <==> c in s
    decreases |s|
  {
    if s != [] {
      var init := s[..|s| - 1];
      assert s == init + [s[|s| - 1]];
      CountPositive(init, c);
    }
  }

  lemma {:induction false} CountAppend(s: string, t: string, c: char)
    ensures Count(s + t, c) == Count(s, c) + Count(t, c)
    decreases |t|
  {
    if t == [] {
      assert s + t == s;
    } else {
      var t' := t[..|t| - 1];
      assert (s + t)[..|s + t| - 1] == s + t';
      CountAppend(s, t', c);
    }
  }

  /** Splits a line holding at least two colons at its last two colons. */
  function SplitLastTwo(line: string): (p: FilterParts)
    requires Count(line, ':') >= 2
    ensures ':' !in p.operation && ':' !in p.value
    ensures p.field + ":" + p.operation + ":" + p.value == line
  {
    CountPositive(line, ':');
    var j := LastIndex(line, ':');
    assert line == line[..j] + [':'] + line[j + 1..];
    CountAppend(line[..j] + [':'], line[j + 1..], ':');
    CountAppend(line[..j], [':'], ':');
    CountPositive(line[j + 1..], ':');
    CountPositive(line[..j], ':');
    var i := LastIndex(line[..j], ':');
    assert line[..j] == line[..i] + [':'] + line[i + 1..j];
    FilterParts(line[..i], line[i + 1..j], line[j + 1..])
  }

  /** The text of `s` before its first line break (all of `s` when it has none). */
  function FirstLine(s: string): (line: string)
    ensures line <= s && '\n' !in line
    ensures |line| < |s| ==> s[|line|] == '\n'
    decreases |s|
  {
    if s == [] || s[0] == '\n' then []
    else [s[0]] + FirstLine(s[1..])
  }

  /**
   * The first match of the pattern `(.*):(.*):(.*)`: the first line holding at least two
   * colons, with its last two colons as the separators (the dot matches no line break,
   * and the first group is greedy). `None` when no line holds two colons.
   */
  function ParseFilter(s: string): (r: Option<FilterParts>)
    ensures r.Some? ==> '\n' !in r.value.field && '\n' !in r.value.operation && '\n' !in r.value.value
    ensures r.Some? ==> ':' !in r.value.operation && ':' !in r.value.value
    decreases |s|
  {
    var line := FirstLine(s);
    if Count(line, ':') >= 2 then
      var p := SplitLastTwo(line);
      assert p.field <= line && p.operation == line[|p.field| + 1..|p.field| + 1 + |p.operation|];
      assert p.value == line[|line| - |p.value|..];
      Some(p)
    else if |line| == |s| then None
    else ParseFilter(s[|line| + 1..])
  }

  /**
   * Writing the three parts with colons between them and reading them back gives the
   * same parts, provided no part holds a line break and the last two hold no colon;
   * the field may hold colons.
   */
  lemma ParseFilterRoundTrip(p: FilterParts)
    requires '\n' !in p.field && '\n' !in p.operation && '\n' !in p.value
    requires ':' !in p.operation && ':' !in p.value
    ensures ParseFilter(p.field + ":" + p.operation + ":" + p.value) == Some(p)
  {
    var s := p.field + ":" + p.operation + ":" + p.value;
    NoBreakFirstLine(s);
    JoinCount(p);
    SplitJoin(p);
  }

  lemma JoinCount(p: FilterParts)
    ensures Count(p.field + ":" + p.operation + ":" + p.value, ':') >= 2
  {
    CountAppend(p.field, ":", ':');
    CountAppend(p.field + ":", p.operation, ':');
    CountAppend(p.field + ":" + p.operation, ":", ':');
    CountAppend(p.field + ":" + p.operation + ":", p.value, ':');
  }

  /** Splitting the joined parts at the last two colons gives the parts back. */
  lemma SplitJoin(p: FilterParts)
    requires ':' !in p.operation && ':' !in p.value
    ensures Count(p.field + ":" + p.operation + ":" + p.value, ':') >= 2
    ensures SplitLastTwo(p.field + ":" + p.operation + ":" + p.value) == p
  {
    JoinCount(p);
    var s := p.field + ":" + p.operation + ":" + p.value;
    var head := p.field + ":" + p.operation;
    LastIndexBefore(head, p.value);
    assert s[..|head|] == head;
    LastIndexBefore(p.field, p.operation);
  }

  lemma {:induction false} NoBreakFirstLine(s: string)
    requires '\n' !in s
    ensures FirstLine(s) == s
    decreases |s|
  {
    if s != [] {
      NoBreakFirstLine(s[1..]);
    }
  }

  /** The last colon of `a + ":" + v` is the one written before a colon-free `v`. */
  lemma {:induction false} LastIndexBefore(a: string, v: string)
    requires ':' !in v
    ensures LastIndex(a + ":" + v, ':') == |a|
    decreases |v|
  {
    var s := a + ":" + v;
    if v != [] {
      assert s[..|s| - 1] == a + ":" + v[..|v| - 1];
      assert s[|s| - 1] == v[|v| - 1];
      LastIndexBefore(a, v[..|v| - 1]);
    }
  }

  /** A string with fewer than two colons matches nowhere. */
  lemma {:induction false} ParseFilterFewColons(s: string)
    requires Count(s, ':') < 2
    ensures ParseFilter(s) == None
    decreases |s|
  {
    CountFirstLine(s);
    var line := FirstLine(s);
    if |line| < |s| {
      ParseFilterFewColons(s[|line| + 1..]);
    }
  }

  /** Neither the first line nor the text after its line break holds more colons than the whole. */
  lemma CountFirstLine(s: string)
    ensures Count(FirstLine(s), ':') <= Count(s, ':')
    ensures |FirstLine(s)| < |s| ==> Count(s[|FirstLine(s)| + 1..], ':') <= Count(s, ':')
  {
    var line := FirstLine(s);
    assert s == line + s[|line|..];
    CountAppend(line, s[|line|..], ':');
    if |line| < |s| {
      var rest := s[|line| + 1..];
      assert s[|line|..] == ['\n'] + rest;
      CountAppend(['\n'], rest, ':');
    }
  }

  /** On one line, the pattern matches exactly when the line holds two colons. */
  lemma ParseFilterOneLine(s: string)
    requires '\n' !in s
    ensures ParseFilter(s).Some? <==> Count(s, ':') >= 2
    ensures ParseFilter(s).Some? ==> ParseFilter(s) == Some(SplitLastTwo(s))
  {
    NoBreakFirstLine(s);
  }

  // ---------------------------------------------------------------------------
  // Applying a filter.
  // ---------------------------------------------------------------------------

  datatype FilterError =
    /** The value of a numeric filter is not a number (only raised on a non-empty list). */
    | InvalidLiteral(value: string)
    /** A filter string the pattern does not match. */
    | MalformedFilter(text: string)

  /**
   * What applying the filter `field:operation:value` to `results` yields. `toFloat` is the
   * number conversion of the value text, `None` where the conversion raises; it is only
   * consulted when there is an element to compare.
   */
  function ApplyFilter(field: string, operation: string, value: string, results: seq<NearEarthObject>,
                       toFloat: string -> Option<real>): Result<seq<NearEarthObject>, FilterError>
  {
    match FieldOf(field)
    case Unrecognised => Ok([])
    case IsHazardous => Ok(Select(results, HazardIs(Lower(value) != "false")))
    case _ =>
      if results == [] then Ok([])
      else match toFloat(value)
        case None => Err(InvalidLiteral(value))
        case Some(bound) =>
          Ok(Select(results, if FieldOf(field) == Diameter then DiameterIs(ComparisonOf(operation), bound)
                             else DistanceIs(ComparisonOf(operation), bound)))
  }

  /** The criterion a filter applies, when it has one: `None` for an unrecognised field or a bad number. */
  function CriterionOf(field: string, operation: string, value: string, toFloat: string -> Option<real>): Option<Criterion> {
    match FieldOf(field)
    case Unrecognised => None
    case IsHazardous => Some(HazardIs(Lower(value) != "false"))
    case Diameter => if toFloat(value).Some? then Some(DiameterIs(ComparisonOf(operation), toFloat(value).value)) else None
    case Distance => if toFloat(value).Some? then Some(DistanceIs(ComparisonOf(operation), toFloat(value).value)) else None
  }

  /** A filter with a criterion is the selection by that criterion. */
  lemma ApplyFilterSelects(field: string, operation: string, value: string, results: seq<NearEarthObject>,
                           toFloat: string -> Option<real>)
    requires CriterionOf(field, operation, value, toFloat).Some?
    ensures ApplyFilter(field, operation, value, results, toFloat)
         == Ok(Select(results, CriterionOf(field, operation, value, toFloat).value))
  {
  }

  /** The result of a filter is an order-preserving subsequence of its input. */
  lemma ApplyFilterSubsequence(field: string, operation: string, value: string, results: seq<NearEarthObject>,
                               toFloat: string -> Option<real>)
    requires ApplyFilter(field, operation, value, results, toFloat).Ok?
    ensures Subsequence(ApplyFilter(field, operation, value, results, toFloat).value, results)
  {
    match FieldOf(field)
    case Unrecognised =>
    case IsHazardous => SelectSubsequence(results, HazardIs(Lower(value) != "false"));
    case _ =>
      if results != [] {
        SelectSubsequence(results, CriterionOf(field, operation, value, toFloat).value);
      }
  }

  /** Applying the same filter to its own result changes nothing. */
  lemma ApplyFilterIdempotent(field: string, operation: string, value: string, results: seq<NearEarthObject>,
                              toFloat: string -> Option<real>)
    requires ApplyFilter(field, operation, value, results, toFloat).Ok?
    ensures var once := ApplyFilter(field, operation, value, results, toFloat).value;
            ApplyFilter(field, operation, value, once, toFloat) == Ok(once)
  {
    match FieldOf(field)
    case Unrecognised =>
    case IsHazardous => SelectIdempotent(results, HazardIs(Lower(value) != "false"));
    case _ =>
      if results != [] {
        SelectIdempotent(results, CriterionOf(field, operation, value, toFloat).value);
      }
  }

  /**
   * A diameter or distance filter on a non-empty list with a number for a value keeps an
   * element exactly when its measure compares with the number as the operator says.
   */
  lemma ApplyFilterNumeric(field: string, operation: string, value: string, results: seq<NearEarthObject>,
                           toFloat: string -> Option<real>, o: NearEarthObject)
    requires FieldOf(field) == Diameter || FieldOf(field) == Distance
    requires results != [] && toFloat(value).Some?
    ensures ApplyFilter(field, operation, value, results, toFloat).Ok?
    ensures var kept := ApplyFilter(field, operation, value, results, toFloat).value;
            var measure := if FieldOf(field) == Diameter then o.diameterMinKm else o.missDistanceKm;
            o in kept <==> o in results && Compare(ComparisonOf(operation), measure, toFloat(value).value)
  {
    SelectMembers(results, CriterionOf(field, operation, value, toFloat).value, o);
  }

  /**
   * A hazard filter ignores the operator: the value "false", in any case, keeps exactly
   * the objects not flagged hazardous, any other value exactly the flagged ones.
   */
  lemma ApplyFilterHazard(field: string, operation: string, value: string, results: seq<NearEarthObject>,
                          toFloat: string -> Option<real>, o: NearEarthObject)
    requires FieldOf(field) == IsHazardous
    ensures ApplyFilter(field, operation, value, results, toFloat).Ok?
    ensures var kept := ApplyFilter(field, operation, value, results, toFloat).value;
            o in kept <==> o in results && o.isPotentiallyHazardous == (Lower(value) != "false")
  {
    SelectMembers(results, HazardIs(Lower(value) != "false"), o);
  }

  /** An unrecognised field yields the empty list, and a numeric filter fails only on a bad number. */
  lemma ApplyFilterOutcomes(field: string, operation: string, value: string, results: seq<NearEarthObject>,
                            toFloat: string -> Option<real>)
    ensures FieldOf(field) == Unrecognised ==> ApplyFilter(field, operation, value, results, toFloat) == Ok([])
    ensures results == [] ==> ApplyFilter(field, operation, value, results, toFloat) == Ok([])
    ensures ApplyFilter(field, operation, value, results, toFloat).Err? <==>
              && (FieldOf(field) == Diameter || FieldOf(field) == Distance)
              && results != [] && toFloat(value).None?
  {
  }

  /** A filter as the search builds it: field, current candidate list, operator and value. */
  class Filter {
    const field: string
    const candidates: seq<NearEarthObject>
    const operation: string
    const value: string

    constructor (field: string, candidates: seq<NearEarthObject>, operation: string, value: string)
      ensures this.field == field && this.candidates == candidates
      ensures this.operation == operation && this.value == value
    {
      this.field := field;
      this.candidates := candidates;
      this.operation := operation;
      this.value := value;
    }

    /** Collects, in order, the elements of `results` this filter keeps. */
    method Apply(results: seq<NearEarthObject>, toFloat: string -> Option<real>)
      returns (r: Result<seq<NearEarthObject>, FilterError>)
      ensures r == ApplyFilter(field, operation, value, results, toFloat)
    {
      var kind := FieldOf(field);
      var criterion: Criterion;
      if kind == Diameter || kind == Distance {
        if |results| == 0 {
          return Ok([]);
        }
        // the number is converted when the first element is compared with it
        var bound := toFloat(value);
        if bound.None? {
          return Err(InvalidLiteral(value));
        }
        var cmp := ComparisonOf(operation);
        criterion := if kind == Diameter then DiameterIs(cmp, bound.value) else DistanceIs(cmp, bound.value);
      } else if kind == IsHazardous {
        criterion := HazardIs(Lower(value) != "false");
      } else {
        return Ok([]);
      }
      var neoContainer: seq<NearEarthObject> := [];
      for i := 0 to |results|
        invariant neoContainer == Select(results[..i], criterion)
      {
        assert results[..i + 1][..i] == results[..i];
        if Keeps(criterion, results[i]) {
          neoContainer := neoContainer + [results[i]];
        }
      }
      assert results[..|results|] == results;
      return Ok(neoContainer);
    }
  }
}
