/**
 * The two record types of the catalogue (starter/models.py): a near-Earth object and
 * the orbit path (close-approach event) built from the same row of keyword arguments.
 */
module Models {
  import opened Wrappers

  /** Dates are the ISO-8601 strings read from the data file and compared as strings. */
  type Date = string

  /**
   * The keyword arguments a record constructor receives: the consumed cells of one data row.
   * `None` stands for a key that is absent from the mapping.
   */
  datatype Row = Row(
    id: Option<string>,
    name: Option<string>,
    estimatedDiameterMinKm: Option<real>,
    isPotentiallyHazardous: Option<bool>,
    closeApproachDate: Option<Date>,
    missDistanceKm: Option<real>)

  /** The keys a constructor looks up; a missing one raises a key error naming it. */
  datatype Key =
    | Id
    | Name
    | EstimatedDiameterMinKilometers
    | IsPotentiallyHazardousAsteroid
    | CloseApproachDate
    | MissDistanceKilometers

  /** A close-approach event of one object. */
  datatype OrbitPath = OrbitPath(neoName: string, closeApproachDate: Date, missDistanceKm: real)

  /**
   * Builds an orbit path from keyword arguments, reading the name, the date and the
   * distance in that order; the first missing key aborts construction.
   */
  function NewOrbitPath(kwargs: Row): (r: Result<OrbitPath, Key>)
    ensures r.Ok? <==> kwargs.name.Some? && kwargs.closeApproachDate.Some? && kwargs.missDistanceKm.Some?
    ensures r.Ok? ==>
              && r.value.neoName == kwargs.name.value
              && r.value.closeApproachDate == kwargs.closeApproachDate.value
              && r.value.missDistanceKm == kwargs.missDistanceKm.value
    ensures r == Err(Name) <==> kwargs.name.None?
    ensures r == Err(CloseApproachDate) <==> kwargs.name.Some? && kwargs.closeApproachDate.None?
    ensures r == Err(MissDistanceKilometers) <==>
              kwargs.name.Some? && kwargs.closeApproachDate.Some? && kwargs.missDistanceKm.None?
  {
    if kwargs.name.None? then Err(Name)
    else if kwargs.closeApproachDate.None? then Err(CloseApproachDate)
    else if kwargs.missDistanceKm.None? then Err(MissDistanceKilometers)
    else Ok(OrbitPath(kwargs.name.value, kwargs.closeApproachDate.value, kwargs.missDistanceKm.value))
  }

  /**
   * A near-Earth object: the keyword arguments it was built from, the fields copied out of
   * them, and the orbit path `UpdateOrbits` attaches after construction.
   */
  datatype NearEarthObject = NearEarthObject(
    orbitInfo: Row,
    id: string,
    name: string,
    diameterMinKm: real,
    isPotentiallyHazardous: bool,
    closeApproachDate: Date,
    missDistanceKm: real,
    orbits: Option<OrbitPath>)
  {
    /**
     * Rebuilds the orbit path from the object's own keyword arguments; the argument is
     * ignored. Fails, as the orbit path constructor does, when a key is missing.
     */
    function UpdateOrbits(orbit: seq<OrbitPath>): (r: Result<NearEarthObject, Key>)
      ensures r.Ok? <==> NewOrbitPath(orbitInfo).Ok?
      ensures r.Ok? ==> r.value == this.(orbits := Some(NewOrbitPath(orbitInfo).value))
      ensures r.Err? ==> r == Err(NewOrbitPath(orbitInfo).error)
    {
      match NewOrbitPath(orbitInfo)
      case Err(k) => Err(k)
      case Ok(path) => Ok(this.(orbits := Some(path)))
    }
  }

  /**
   * Builds an object from keyword arguments, reading the id, name, diameter, hazard flag,
   * date and distance in that order; the first missing key aborts construction.
   */
  function NewNearEarthObject(kwargs: Row): (r: Result<NearEarthObject, Key>)
    ensures r.Ok? <==>
      && kwargs.id.Some? && kwargs.name.Some? && kwargs.estimatedDiameterMinKm.Some?
      && kwargs.isPotentiallyHazardous.Some? && kwargs.closeApproachDate.Some? && kwargs.missDistanceKm.Some?
    ensures r.Ok? ==>
      && r.value.orbitInfo == kwargs
      && Some(r.value.id) == kwargs.id
      && Some(r.value.name) == kwargs.name
      && Some(r.value.diameterMinKm) == kwargs.estimatedDiameterMinKm
      && Some(r.value.isPotentiallyHazardous) == kwargs.isPotentiallyHazardous
      && Some(r.value.closeApproachDate) == kwargs.closeApproachDate
      && Some(r.value.missDistanceKm) == kwargs.missDistanceKm
      && r.value.orbits == None
    ensures r == Err(Id) <==> kwargs.id.None?
    ensures r == Err(Name) <==> kwargs.id.Some? && kwargs.name.None?
    ensures r == Err(EstimatedDiameterMinKilometers) <==>
              kwargs.id.Some? && kwargs.name.Some? && kwargs.estimatedDiameterMinKm.None?
    ensures r == Err(IsPotentiallyHazardousAsteroid) <==>
              kwargs.id.Some? && kwargs.name.Some? && kwargs.estimatedDiameterMinKm.Some? && kwargs.isPotentiallyHazardous.None?
    ensures r == Err(CloseApproachDate) <==>
              && kwargs.id.Some? && kwargs.name.Some? && kwargs.estimatedDiameterMinKm.Some?
              && kwargs.isPotentiallyHazardous.Some? && kwargs.closeApproachDate.None?
    ensures r == Err(MissDistanceKilometers) <==>
              && kwargs.id.Some? && kwargs.name.Some? && kwargs.estimatedDiameterMinKm.Some?
              && kwargs.isPotentiallyHazardous.Some? && kwargs.closeApproachDate.Some? && kwargs.missDistanceKm.None?
  {
    if kwargs.id.None? then Err(Id)
    else if kwargs.name.None? then Err(Name)
    else if kwargs.estimatedDiameterMinKm.None? then Err(EstimatedDiameterMinKilometers)
    else if kwargs.isPotentiallyHazardous.None? then Err(IsPotentiallyHazardousAsteroid)
    else if kwargs.closeApproachDate.None? then Err(CloseApproachDate)
    else if kwargs.missDistanceKm.None? then Err(MissDistanceKilometers)
    else
      Ok(NearEarthObject(kwargs, kwargs.id.value, kwargs.name.value, kwargs.estimatedDiameterMinKm.value,
                         kwargs.isPotentiallyHazardous.value, kwargs.closeApproachDate.value,
                         kwargs.missDistanceKm.value, None))
  }

  /**
   * On an object the constructor built, `UpdateOrbits` succeeds whatever its argument, and
   * the orbit path it attaches carries the object's own name, date and distance.
   */
  lemma UpdateOrbitsOwnFields(kwargs: Row, orbit: seq<OrbitPath>)
    requires NewNearEarthObject(kwargs).Ok?
    ensures var neo := NewNearEarthObject(kwargs).value;
            && neo.UpdateOrbits(orbit).Ok?
            && neo.UpdateOrbits(orbit).value == neo.(orbits := Some(OrbitPath(neo.name, neo.closeApproachDate, neo.missDistanceKm)))
  {
  }

  /** Updating the orbits again leaves the same object. */
  lemma UpdateOrbitsIdempotent(neo: NearEarthObject, a: seq<OrbitPath>, b: seq<OrbitPath>)
    requires neo.UpdateOrbits(a).Ok?
    ensures neo.UpdateOrbits(a).value.UpdateOrbits(b) == neo.UpdateOrbits(a)
  {
  }
}
