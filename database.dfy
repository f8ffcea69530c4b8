/**
 * The record store (starter/database.py): a date index from each close-approach date to
 * the objects recorded on it, and a name index from each object name to its orbit path.
 */
module Database {
  import opened Wrappers
  import opened Models

  /** Python truthiness of an optional file name: an absent and an empty name are both false. */
  predicate Supplied(filename: Option<string>) {
    filename.Some? && filename.value != ""
  }

  /** A row from which both record constructors succeed. */
  predicate WellFormed(row: Row) {
    && row.id.Some? && row.name.Some? && row.estimatedDiameterMinKm.Some?
    && row.isPotentiallyHazardous.Some? && row.closeApproachDate.Some? && row.missDistanceKm.Some?
  }

  predicate AllWellFormed(rows: seq<Row>) {
    forall i :: 0 <= i < |rows| ==> WellFormed(rows[i])
  }

  /** The orbit path the loader builds from a row. */
  function OrbitOf(row: Row): (p: OrbitPath)
    requires WellFormed(row)
    ensures NewOrbitPath(row) == Ok(p)
  {
    OrbitPath(row.name.value, row.closeApproachDate.value, row.missDistanceKm.value)
  }

  /** The object the loader builds from a row: constructed, then given its orbit path. */
  function ObjectOf(row: Row): (o: NearEarthObject)
    requires WellFormed(row)
    ensures NewNearEarthObject(row).Ok? && NewNearEarthObject(row).value.UpdateOrbits([]) == Ok(o)
    ensures o.orbitInfo == row && Some(o.name) == row.name && Some(o.closeApproachDate) == row.closeApproachDate
    ensures o.orbits == Some(OrbitOf(row))
  {
    NewNearEarthObject(row).value.UpdateOrbits([]).value
  }

  /** An object as the loader leaves it: built from a well-formed row and given its orbit path. */
  predicate Loaded(o: NearEarthObject) {
    WellFormed(o.orbitInfo) && o == ObjectOf(o.orbitInfo)
  }

  function Lookup<V>(m: map<Date, seq<V>>, d: Date): seq<V> {
    if d in m then m[d] else []
  }

  /** `order` lists every key of `keys` exactly once. */
  predicate KeysInOrder(keys: set<Date>, order: seq<Date>) {
    && (forall i :: 0 <= i < |order| ==> order[i] in keys)
    && (forall d :: d in keys ==> d in order)
    && (forall i, j :: 0 <= i < j < |order| ==> order[i] != order[j])
  }

  // ---------------------------------------------------------------------------
  // The indexes as values: what the loader builds from the rows it reads.
  // ---------------------------------------------------------------------------

  /** The date index, its keys in insertion order, and the name index. */
  datatype Index = Index(orbits: map<Date, seq<NearEarthObject>>, dates: seq<Date>, names: map<string, OrbitPath>)

  /** The shape the store keeps whatever happens: every date listed once, in insertion order. */
  predicate IndexShaped(idx: Index) {
    KeysInOrder(idx.orbits.Keys, idx.dates)
  }

  /** The shape a store has after complete loads: in addition, no date has an empty list. */
  predicate IndexValid(idx: Index) {
    && IndexShaped(idx)
    && (forall d :: d in idx.orbits ==> idx.orbits[d] != [])
  }

  /** Every filed object was built from a well-formed row of the date it is filed under. */
  predicate IndexSound(idx: Index) {
    forall d, o :: d in idx.orbits && o in idx.orbits[d] ==> Loaded(o) && o.closeApproachDate == d
  }

  /**
   * The first half of filing a row: a date not yet indexed gets an empty list, placed last
   * in the key order; an indexed date is left as it is.
   */
  function Open(idx: Index, d: Date): (r: Index)
    ensures r.orbits.Keys == idx.orbits.Keys + {d} && r.names == idx.names
    ensures d in idx.orbits ==> r == idx
    ensures d !in idx.orbits ==> r.orbits[d] == [] && r.dates == idx.dates + [d]
    ensures forall e :: e in idx.orbits ==> r.orbits[e] == idx.orbits[e]
    ensures IndexShaped(idx) ==> IndexShaped(r)
  {
    if d in idx.orbits then idx
    else
      var r := Index(idx.orbits[d := []], idx.dates + [d], idx.names);
      assert IndexShaped(idx) ==> forall i :: 0 <= i < |idx.dates| ==> idx.dates[i] != d;
      r
  }

  /**
   * The second half: append `o` to the (existing) list of date `d`, then record `path`
   * under name `n` unless `n` is a key of the date index.
   */
  function Append(idx: Index, d: Date, n: string, o: NearEarthObject, path: OrbitPath): (r: Index)
    requires d in idx.orbits
    ensures r.orbits.Keys == idx.orbits.Keys && r.dates == idx.dates
    ensures r.orbits[d] == idx.orbits[d] + [o]
    ensures forall e :: e in idx.orbits && e != d ==> r.orbits[e] == idx.orbits[e]
    ensures n in idx.orbits ==> r.names == idx.names
    ensures n !in idx.orbits ==> r.names == idx.names[n := path]
  {
    var orbits := idx.orbits[d := idx.orbits[d] + [o]];
    Index(orbits, idx.dates, if n !in orbits then idx.names[n := path] else idx.names)
  }

  /** One filing step: the row's date is opened, then the object and orbit path appended. */
  function File(idx: Index, d: Date, n: string, o: NearEarthObject, path: OrbitPath): Index {
    Append(Open(idx, d), d, n, o, path)
  }

  datatype LoadError =
    | NoFilenameProvided
    /** A row lacks a key the orbit path constructor reads. */
    | MissingKey(key: Key)
    /** The first object constructor failed, so there is no object yet to file. */
    | UnboundObject

  /** What loading leaves behind: the indexes and the error that stopped it, if any. */
  datatype Outcome = Outcome(idx: Index, error: Option<LoadError>)

  /**
   * The loading loop from index `idx` over `rows`, `current` being the object the previous
   * row left bound. A failing object constructor is reported and skipped, so the row is
   * filed with `current`; a failing orbit path constructor stops the load with the rows
   * before it filed; a row that finds no object bound stops it after its date is opened,
   * the append of the unbound name being what fails.
   */
  function LoadRows(idx: Index, current: Option<NearEarthObject>, rows: seq<Row>): Outcome
    decreases |rows|
  {
    if rows == [] then Outcome(idx, None)
    else
      var row := rows[0];
      var next := NextObject(current, row);
      match NewOrbitPath(row)
      case Err(k) => Outcome(idx, Some(MissingKey(k)))
      case Ok(path) =>
        if next.None? then Outcome(Open(idx, row.closeApproachDate.value), Some(UnboundObject))
        else LoadRows(File(idx, row.closeApproachDate.value, row.name.value, next.value, path), next, rows[1..])
  }

  /**
   * The object bound after the constructors run on `row`: the new object given its orbit
   * path, or, when construction fails, the one bound before.
   */
  function NextObject(current: Option<NearEarthObject>, row: Row): (r: Option<NearEarthObject>)
    ensures NewNearEarthObject(row).Err? ==> r == current
    ensures NewNearEarthObject(row).Ok? ==> r.Some? && r.value.orbitInfo == row && r.value.orbits == Some(NewOrbitPath(row).value)
    ensures NewNearEarthObject(row).Ok? ==> WellFormed(row) && r == Some(ObjectOf(row))
  {
    match NewNearEarthObject(row)
    case Ok(o) => Some(o.UpdateOrbits([]).value)
    case Err(_) => current
  }

  /** One turn of the loading loop: the three ways a row is handled. */
  lemma LoadRowsUnfold(idx: Index, current: Option<NearEarthObject>, rows: seq<Row>)
    requires rows != []
    ensures var row, next := rows[0], NextObject(current, rows[0]);
            && (NewOrbitPath(row).Err? ==> LoadRows(idx, current, rows) == Outcome(idx, Some(MissingKey(NewOrbitPath(row).error))))
            && (NewOrbitPath(row).Ok? && next.None? ==>
                  LoadRows(idx, current, rows) == Outcome(Open(idx, row.closeApproachDate.value), Some(UnboundObject)))
            && (NewOrbitPath(row).Ok? && next.Some? ==>
                  LoadRows(idx, current, rows)
                  == LoadRows(File(idx, row.closeApproachDate.value, row.name.value, next.value, NewOrbitPath(row).value), next, rows[1..]))
  {
  }

  /** The objects built from the rows dated `d`, in row order. */
  function ObjectsOn(rows: seq<Row>, d: Date): seq<NearEarthObject>
    requires AllWellFormed(rows)
    decreases |rows|
  {
    if rows == [] then []
    else (if rows[0].closeApproachDate == Some(d) then [ObjectOf(rows[0])] else []) + ObjectsOn(rows[1..], d)
  }

  function DatesOf(rows: seq<Row>): set<Date> {
    set r | r in rows && r.closeApproachDate.Some? :: r.closeApproachDate.value
  }

  /** The orbit path of the last row named `n`, if any. */
  function LastOrbitNamed(rows: seq<Row>, n: string): Option<OrbitPath>
    requires AllWellFormed(rows)
    decreases |rows|
  {
    if rows == [] then None
    else if LastOrbitNamed(rows[1..], n).Some? then LastOrbitNamed(rows[1..], n)
    else if rows[0].name == Some(n) then Some(OrbitOf(rows[0]))
    else None
  }

  function GetName(m: map<string, OrbitPath>, n: string): Option<OrbitPath> {
    if n in m then Some(m[n]) else None
  }

  /** On well-formed rows each step files the object and orbit path the row describes. */
  lemma LoadRowsStep(idx: Index, current: Option<NearEarthObject>, rows: seq<Row>)
    requires AllWellFormed(rows) && rows != []
    ensures var r := rows[0];
            LoadRows(idx, current, rows)
            == LoadRows(File(idx, r.closeApproachDate.value, r.name.value, ObjectOf(r), OrbitOf(r)), Some(ObjectOf(r)), rows[1..])
  {
  }

  /** Well-formed rows load without error. */
  lemma {:induction false} LoadRowsNoError(idx: Index, current: Option<NearEarthObject>, rows: seq<Row>)
    requires AllWellFormed(rows)
    ensures LoadRows(idx, current, rows).error == None
    decreases |rows|
  {
    if rows != [] {
      LoadRowsStep(idx, current, rows);
      var r := rows[0];
      LoadRowsNoError(File(idx, r.closeApproachDate.value, r.name.value, ObjectOf(r), OrbitOf(r)), Some(ObjectOf(r)), rows[1..]);
    }
  }

  /** The error stopping a load is the orbit path's missing key or the unbound object. */
  lemma {:induction false} LoadRowsError(idx: Index, current: Option<NearEarthObject>, rows: seq<Row>)
    ensures var e := LoadRows(idx, current, rows).error;
            e.Some? ==> (e.value.MissingKey? && e.value.key in {Name, CloseApproachDate, MissDistanceKilometers}) || (e.value.UnboundObject? && current.None?)
    decreases |rows|
  {
    if rows != [] {
      var row := rows[0];
      var next := NextObject(current, row);
      if NewOrbitPath(row).Ok? && next.Some? {
        LoadRowsError(File(idx, row.closeApproachDate.value, row.name.value, next.value, NewOrbitPath(row).value), next, rows[1..]);
      }
    }
  }

  /** One filing keeps the key order, and keeps every list non-empty when they were. */
  lemma FileValid(idx: Index, d: Date, n: string, o: NearEarthObject, path: OrbitPath)
    requires IndexShaped(idx)
    ensures IndexShaped(File(idx, d, n, o, path))
    ensures idx.dates <= File(idx, d, n, o, path).dates
    ensures IndexValid(idx) ==> IndexValid(File(idx, d, n, o, path))
  {
    var started := Open(idx, d);
    var next := Append(started, d, n, o, path);
    assert next.orbits.Keys == started.orbits.Keys;
  }

  /**
   * Any load, complete or stopped, keeps every date listed once in insertion order, and
   * dates already listed keep their place. No list is left empty unless the load stopped on
   * an unbound object, whose row's date has been opened but not filed.
   */
  lemma {:induction false} LoadRowsValid(idx: Index, current: Option<NearEarthObject>, rows: seq<Row>)
    requires IndexShaped(idx)
    ensures IndexShaped(LoadRows(idx, current, rows).idx)
    ensures idx.dates <= LoadRows(idx, current, rows).idx.dates
    ensures IndexValid(idx) && LoadRows(idx, current, rows).error != Some(UnboundObject) ==>
              IndexValid(LoadRows(idx, current, rows).idx)
    decreases |rows|
  {
    if rows != [] {
      var row := rows[0];
      var next := NextObject(current, row);
      if NewOrbitPath(row).Ok? && next.Some? {
        var idx' := File(idx, row.closeApproachDate.value, row.name.value, next.value, NewOrbitPath(row).value);
        FileValid(idx, row.closeApproachDate.value, row.name.value, next.value, NewOrbitPath(row).value);
        LoadRowsValid(idx', next, rows[1..]);
      }
    }
  }

  /**
   * A load stops on an unbound object exactly when nothing was bound before and its first
   * row's object cannot be built while its orbit path can; the store is then left with that
   * row's date opened (an empty list when the date is new) and nothing filed.
   */
  lemma LoadRowsUnbound(idx: Index, current: Option<NearEarthObject>, rows: seq<Row>)
    ensures LoadRows(idx, current, rows).error == Some(UnboundObject) <==>
              current.None? && rows != [] && NewNearEarthObject(rows[0]).Err? && NewOrbitPath(rows[0]).Ok?
    ensures LoadRows(idx, current, rows).error == Some(UnboundObject) ==>
              LoadRows(idx, current, rows).idx == Open(idx, rows[0].closeApproachDate.value)
  {
    if rows != [] {
      var row := rows[0];
      var next := NextObject(current, row);
      if NewOrbitPath(row).Ok? && next.Some? {
        LoadRowsError(File(idx, row.closeApproachDate.value, row.name.value, next.value, NewOrbitPath(row).value), next, rows[1..]);
      }
    }
  }

  /** Which of the columns the constructors read a row carries. */
  function Columns(row: Row): seq<bool> {
    [ row.id.Some?, row.name.Some?, row.estimatedDiameterMinKm.Some?,
      row.isPotentiallyHazardous.Some?, row.closeApproachDate.Some?, row.missDistanceKm.Some? ]
  }

  /** Rows read from one data file: every row carries a cell for each column of the file. */
  predicate SameColumns(rows: seq<Row>) {
    forall i, j :: 0 <= i < |rows| && 0 <= j < |rows| ==> Columns(rows[i]) == Columns(rows[j])
  }

  /**
   * For the rows of one data file, a fresh load either completes, when every row is well
   * formed, or stops already on the first row: a missing orbit path key is reported, or
   * else the first object cannot be built and the load stops unbound. No stale object is
   * filed.
   */
  lemma OneFileLoad(idx: Index, rows: seq<Row>)
    requires SameColumns(rows)
    ensures LoadRows(idx, None, rows).error == None <==> AllWellFormed(rows)
    ensures !AllWellFormed(rows) ==>
              var row := rows[0];
              LoadRows(idx, None, rows)
              == if NewOrbitPath(row).Err? then Outcome(idx, Some(MissingKey(NewOrbitPath(row).error)))
                 else Outcome(Open(idx, row.closeApproachDate.value), Some(UnboundObject))
  {
    if AllWellFormed(rows) {
      LoadRowsNoError(idx, None, rows);
    } else {
      var k :| 0 <= k < |rows| && !WellFormed(rows[k]);
      var first, broken := Columns(rows[0]), Columns(rows[k]);
      assert first == broken;
      assert !WellFormed(rows[0]) by {
        assert forall c :: 0 <= c < 6 ==> first[c] == broken[c];
      }
      LoadRowsUnfold(idx, None, rows);
    }
  }

  /** Loading well-formed rows files every object under its own date. */
  lemma {:induction false} LoadRowsSound(idx: Index, current: Option<NearEarthObject>, rows: seq<Row>)
    requires AllWellFormed(rows) && IndexSound(idx)
    ensures IndexSound(LoadRows(idx, current, rows).idx)
    decreases |rows|
  {
    if rows != [] {
      var r := rows[0];
      var o := ObjectOf(r);
      var idx' := File(idx, r.closeApproachDate.value, r.name.value, o, OrbitOf(r));
      LoadRowsStep(idx, current, rows);
      forall e, p | e in idx'.orbits && p in idx'.orbits[e] ensures Loaded(p) && p.closeApproachDate == e {
        if e == r.closeApproachDate.value && p !in Lookup(idx.orbits, e) { assert p == o; }
      }
      LoadRowsSound(idx', Some(o), rows[1..]);
    }
  }

  lemma FileLookup(idx: Index, d: Date, n: string, o: NearEarthObject, path: OrbitPath, e: Date)
    ensures Lookup(File(idx, d, n, o, path).orbits, e) == Lookup(idx.orbits, e) + (if d == e then [o] else [])
  {
  }

  /** Loading appends, to each date's list, the objects of that date's rows in row order. */
  lemma {:induction false} LoadRowsPerDate(idx: Index, current: Option<NearEarthObject>, rows: seq<Row>, d: Date)
    requires AllWellFormed(rows)
    ensures Lookup(LoadRows(idx, current, rows).idx.orbits, d) == Lookup(idx.orbits, d) + ObjectsOn(rows, d)
    decreases |rows|
  {
    if rows != [] {
      var r := rows[0];
      var o := ObjectOf(r);
      var idx' := File(idx, r.closeApproachDate.value, r.name.value, o, OrbitOf(r));
      var here := if r.closeApproachDate == Some(d) then [o] else [];
      var tail := rows[1..];
      assert AllWellFormed(tail);
      calc {
        Lookup(LoadRows(idx, current, rows).idx.orbits, d);
        { LoadRowsStep(idx, current, rows); }
        Lookup(LoadRows(idx', Some(o), tail).idx.orbits, d);
        { LoadRowsPerDate(idx', Some(o), tail, d); }
        Lookup(idx'.orbits, d) + ObjectsOn(tail, d);
        { FileLookup(idx, r.closeApproachDate.value, r.name.value, o, OrbitOf(r), d); }
        Lookup(idx.orbits, d) + here + ObjectsOn(tail, d);
        Lookup(idx.orbits, d) + (here + ObjectsOn(tail, d));
      }
    }
  }

  /** After loading well-formed rows, the dates indexed are the earlier ones and those of the rows. */
  lemma {:induction false} LoadRowsKeys(idx: Index, current: Option<NearEarthObject>, rows: seq<Row>)
    requires AllWellFormed(rows)
    ensures LoadRows(idx, current, rows).idx.orbits.Keys == idx.orbits.Keys + DatesOf(rows)
    decreases |rows|
  {
    if rows != [] {
      var r := rows[0];
      LoadRowsStep(idx, current, rows);
      LoadRowsKeys(File(idx, r.closeApproachDate.value, r.name.value, ObjectOf(r), OrbitOf(r)), Some(ObjectOf(r)), rows[1..]);
      assert rows == [r] + rows[1..];
      assert DatesOf(rows) == {r.closeApproachDate.value} + DatesOf(rows[1..]);
    }
  }

  /** ObjectsOn holds exactly the objects of the rows dated `d`: none is lost, none is added. */
  lemma {:induction false} ObjectsOnMembers(rows: seq<Row>, d: Date, o: NearEarthObject)
    requires AllWellFormed(rows)
    ensures o in ObjectsOn(rows, d) <==> Loaded(o) && o.orbitInfo in rows && o.closeApproachDate == d
    decreases |rows|
  {
    if rows != [] {
      ObjectsOnMembers(rows[1..], d, o);
      assert rows == [rows[0]] + rows[1..];
    }
  }

  /** Loading the same well-formed rows twice doubles every per-date list. */
  lemma LoadTwiceDoubles(idx: Index, rows: seq<Row>, d: Date)
    requires AllWellFormed(rows)
    ensures var once := LoadRows(idx, None, rows).idx;
            Lookup(LoadRows(once, None, rows).idx.orbits, d) == Lookup(idx.orbits, d) + ObjectsOn(rows, d) + ObjectsOn(rows, d)
  {
    LoadRowsPerDate(idx, None, rows, d);
    LoadRowsPerDate(LoadRows(idx, None, rows).idx, None, rows, d);
  }

  /**
   * A name that never becomes a date key ends up mapped to the orbit path of the
   * last row carrying it (or keeps its earlier entry when no row carries it).
   */
  lemma {:induction false} NameIndexLastWins(idx: Index, current: Option<NearEarthObject>, rows: seq<Row>, n: string)
    requires AllWellFormed(rows)
    requires n !in LoadRows(idx, current, rows).idx.orbits
    ensures GetName(LoadRows(idx, current, rows).idx.names, n)
         == if LastOrbitNamed(rows, n).Some? then LastOrbitNamed(rows, n) else GetName(idx.names, n)
    decreases |rows|
  {
    if rows != [] {
      var r := rows[0];
      var idx' := File(idx, r.closeApproachDate.value, r.name.value, ObjectOf(r), OrbitOf(r));
      LoadRowsStep(idx, current, rows);
      LoadRowsKeys(idx', Some(ObjectOf(r)), rows[1..]);
      NameIndexLastWins(idx', Some(ObjectOf(r)), rows[1..], n);
    }
  }

  /** A name that is already a date key is never written into the name index. */
  lemma {:induction false} NameIndexShadowedByDate(idx: Index, current: Option<NearEarthObject>, rows: seq<Row>, n: string)
    requires n in idx.orbits
    ensures GetName(LoadRows(idx, current, rows).idx.names, n) == GetName(idx.names, n)
    decreases |rows|
  {
    if rows != [] {
      var row := rows[0];
      var next := NextObject(current, row);
      if NewOrbitPath(row).Ok? && next.Some? {
        NameIndexShadowedByDate(File(idx, row.closeApproachDate.value, row.name.value, next.value, NewOrbitPath(row).value), next, rows[1..], n);
      }
    }
  }

  /**
   * A row whose object cannot be built but whose orbit path can is filed with the object
   * of the row before it: the exception is reported and the previous binding is reused.
   */
  lemma StaleObjectFiled(idx: Index, first: Row, second: Row, rest: seq<Row>)
    requires WellFormed(first)
    requires NewNearEarthObject(second).Err? && NewOrbitPath(second).Ok?
    ensures var idx1 := File(idx, first.closeApproachDate.value, first.name.value, ObjectOf(first), OrbitOf(first));
            var d := second.closeApproachDate.value;
            var idx2 := File(idx1, d, second.name.value, ObjectOf(first), NewOrbitPath(second).value);
            && LoadRows(idx, None, [first, second] + rest) == LoadRows(idx2, Some(ObjectOf(first)), rest)
            && Lookup(idx2.orbits, d) == Lookup(idx1.orbits, d) + [ObjectOf(first)]
  {
    var rows := [first, second] + rest;
    assert rows[0] == first && rows[1..] == [second] + rest;
    LoadRowsUnfold(idx, None, rows);
    var idx1 := File(idx, first.closeApproachDate.value, first.name.value, ObjectOf(first), OrbitOf(first));
    assert ([second] + rest)[0] == second && ([second] + rest)[1..] == rest;
    LoadRowsUnfold(idx1, Some(ObjectOf(first)), [second] + rest);
  }

  // ---------------------------------------------------------------------------
  // The database object.
  // ---------------------------------------------------------------------------

  class NEODatabase {
    var filename: Option<string>
    var orbitDict: map<Date, seq<NearEarthObject>>
    /** The keys of `orbitDict` in insertion order, the order Python iterates them in. */
    var dateKeys: seq<Date>
    var neoEarthDict: map<string, OrbitPath>

    function View(): Index
      reads this
    {
      Index(orbitDict, dateKeys, neoEarthDict)
    }

    predicate Valid()
      reads this
    {
      IndexShaped(View())
    }

    constructor (filename: Option<string>)
      ensures Valid() && IndexValid(View()) && IndexSound(View())
      ensures this.filename == filename
      ensures orbitDict == map[] && dateKeys == [] && neoEarthDict == map[]
    {
      this.filename := filename;
      orbitDict := map[];
      dateKeys := [];
      neoEarthDict := map[];
    }

    /** Gives `date` an empty list, placed last in the key order, unless it is already a key. */
    method OpenDate(date: Date)
      requires Valid()
      modifies this
      ensures Valid()
      ensures filename == old(filename)
      ensures View() == Open(old(View()), date)
    {
      if date !in orbitDict {
        orbitDict := orbitDict[date := []];
        dateKeys := dateKeys + [date];
      }
    }

    /**
     * Appends `nearEarthObject` to the list of `date`, then records `orbitPath` under
     * `name` unless `name` is a key of the date index.
     */
    method FileRow(date: Date, name: string, nearEarthObject: NearEarthObject, orbitPath: OrbitPath)
      requires Valid() && date in orbitDict
      modifies this
      ensures Valid()
      ensures filename == old(filename)
      ensures View() == Append(old(View()), date, name, nearEarthObject, orbitPath)
    {
      ghost var filed := Append(View(), date, name, nearEarthObject, orbitPath);
      orbitDict := orbitDict[date := orbitDict[date] + [nearEarthObject]];
      assert orbitDict == filed.orbits;
      if name !in orbitDict {
        neoEarthDict := neoEarthDict[name := orbitPath];
      }
    }

    /**
     * The loading loop over the rows of the data file, in row order; stops at the first
     * row whose orbit path cannot be built or that finds no object bound.
     */
    method IndexRows(rows: seq<Row>) returns (error: Option<LoadError>)
      requires Valid()
      modifies this
      ensures Valid()
      ensures filename == old(filename)
      ensures Outcome(View(), error) == LoadRows(old(View()), None, rows)
    {
      var orbit: seq<OrbitPath> := [];
      var nearEarthObject: Option<NearEarthObject> := None;
      var i := 0;
      while i < |rows|
        invariant 0 <= i <= |rows|
        invariant Valid()
        invariant filename == old(filename)
        invariant LoadRows(View(), nearEarthObject, rows[i..]) == LoadRows(old(View()), None, rows)
      {
        var row := rows[i];
        ghost var before, bound := View(), nearEarthObject;
        assert rows[i..][0] == row && rows[i..][1..] == rows[i + 1..];
        LoadRowsUnfold(before, bound, rows[i..]);
        // a failing object constructor is reported and the previous object stays bound
        var built := NewNearEarthObject(row);
        if built.Ok? {
          var updated := built.value.UpdateOrbits(orbit);
          nearEarthObject := Some(updated.value);
        }
        assert nearEarthObject == NextObject(bound, row);
        var orbitPath := NewOrbitPath(row);
        if orbitPath.Err? {
          return Some(MissingKey(orbitPath.error));
        }
        var date := row.closeApproachDate.value;
        OpenDate(date);
        if nearEarthObject.None? {
          // appending the unbound object to the date's list fails
          return Some(UnboundObject);
        }
        FileRow(date, row.name.value, nearEarthObject.value, orbitPath.value);
        i := i + 1;
      }
      return None;
    }

    /**
     * Reads the data file chosen by `filename` or, failing that, by the constructor's file
     * name, and indexes its rows (`rows` stands for what reading that file yields). The
     * source returns nothing; the name of the file read is returned here only to state
     * which file was chosen, and an error stands for the exception that stops the load.
     */
    method LoadData(filename: Option<string>, rows: seq<Row>) returns (r: Result<string, LoadError>)
      requires Valid()
      modifies this
      ensures Valid()
      ensures this.filename == old(this.filename)
      ensures !Supplied(filename) && !Supplied(this.filename) ==> r == Err(NoFilenameProvided) && unchanged(this)
      ensures Supplied(filename) || Supplied(this.filename) ==>
                var out := LoadRows(old(View()), None, rows);
                && View() == out.idx
                && r == (if out.error.Some? then Err(out.error.value)
                         else Ok(if Supplied(filename) then filename.value else this.filename.value))
      ensures old(IndexValid(View())) && r != Err(UnboundObject) ==> IndexValid(View())
    {
      if !(Supplied(filename) || Supplied(this.filename)) {
        return Err(NoFilenameProvided);
      }
      ghost var before := View();
      var chosen := if Supplied(filename) then filename.value else this.filename.value;
      var error := IndexRows(rows);
      LoadRowsValid(before, None, rows);
      if error.Some? {
        return Err(error.value);
      }
      return Ok(chosen);
    }
  }

  /**
   * The store a load leaves is well formed whatever the rows, and, when every row is
   * well formed, holds each row's object under its date.
   */
  lemma LoadDataSound(idx: Index, rows: seq<Row>)
    requires IndexValid(idx) && IndexSound(idx) && AllWellFormed(rows)
    ensures LoadRows(idx, None, rows).error == None
    ensures IndexValid(LoadRows(idx, None, rows).idx) && IndexSound(LoadRows(idx, None, rows).idx)
  {
    LoadRowsNoError(idx, None, rows);
    LoadRowsValid(idx, None, rows);
    LoadRowsSound(idx, None, rows);
  }
}
