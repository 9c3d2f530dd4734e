/** The persistent state the observation write path reads and writes,
    abstracted to immutable collections, with the database lookups and
    inserts the orchestration relies on. */
module Store {
  import opened Results
  import opened Entities

  /** Constraints the database enforces on inserted rows; their content is not modelled. */
  datatype Rules = Rules(
    acceptsFoi: FeatureOfInterest -> bool,
    acceptsObservation: Observation -> bool)

  datatype Store = Store(
    datastreams: set<Id>,
    thingOf: map<Id, Id>,                 // datastream -> owning thing
    locationsOf: map<Id, seq<Location>>,  // thing -> its locations, in the order the database returns them
    fois: map<Id, FeatureOfInterest>,
    nextFoi: Id,                          // next key of the FeatureOfInterest serial
    observations: map<Id, Observation>,
    nextObservation: Id,                  // next key of the Observation serial
    outbox: seq<Message>)                 // everything published so far, oldest first

  /** Serial keys: every key is below its table's next key, and keys start at 1. */
  ghost predicate Valid(s: Store) {
    && 0 !in s.datastreams
    && 1 <= s.nextFoi
    && 1 <= s.nextObservation
    && (forall k :: k in s.fois ==> 1 <= k < s.nextFoi)
    && (forall k :: k in s.observations ==> 1 <= k < s.nextObservation)
  }

  /** At most one FeatureOfInterest per original location. */
  ghost predicate FoiDedup(s: Store) {
    forall a, b ::
      (a in s.fois && b in s.fois && s.fois[a].originalLocationId.Some?
       && s.fois[a].originalLocationId == s.fois[b].originalLocationId) ==> a == b
  }

  /** GetLocationsByThing: a thing without locations has the empty list. */
  function LocationsOf(s: Store, thing: Id): seq<Location> {
    if thing in s.locationsOf then s.locationsOf[thing] else []
  }

  /** The first FeatureOfInterest in key order within [lo, hi) derived from location `loc`. */
  function FoiSearch(fois: map<Id, FeatureOfInterest>, loc: Id, lo: nat, hi: nat): (r: Option<Id>)
    ensures r.Some? ==> lo <= r.value < hi && r.value in fois && fois[r.value].originalLocationId == Some(loc)
    ensures r.Some? ==> forall k :: lo <= k < r.value && k in fois ==> fois[k].originalLocationId != Some(loc)
    ensures r.None? ==> forall k :: lo <= k < hi && k in fois ==> fois[k].originalLocationId != Some(loc)
    decreases hi - lo
  {
    if hi <= lo then None
    else if lo in fois && fois[lo].originalLocationId == Some(loc) then Some(lo)
    else FoiSearch(fois, loc, lo + 1, hi)
  }

  /** GetFeatureOfInterestByLocationID: the feature derived from location `loc`, if any. */
  function FoiByLocation(s: Store, loc: Id): (r: Option<Id>)
    ensures r.Some? ==> r.value in s.fois && s.fois[r.value].originalLocationId == Some(loc)
    ensures Valid(s) && r.None? ==> forall k :: k in s.fois ==> s.fois[k].originalLocationId != Some(loc)
  {
    FoiSearch(s.fois, loc, 0, s.nextFoi)
  }

  /** Adds a FeatureOfInterest under the next serial key. */
  function InsertFoi(s: Store, f: FeatureOfInterest): (out: (Id, Store))
    ensures Valid(s) ==> out.0 !in s.fois && Valid(out.1)
    ensures s.nextFoi <= out.0 < out.1.nextFoi
    ensures out.0 in out.1.fois && out.1.fois[out.0] == f
    ensures out.1 == s.(fois := s.fois[out.0 := f], nextFoi := out.1.nextFoi)
  {
    (s.nextFoi, s.(fois := s.fois[s.nextFoi := f], nextFoi := s.nextFoi + 1))
  }

  /** Adds an Observation under the next serial key, stamping the key on the row. */
  function InsertObservation(s: Store, o: Observation): (out: (Id, Store))
    ensures Valid(s) ==> out.0 !in s.observations && Valid(out.1)
    ensures s.nextObservation <= out.0 < out.1.nextObservation
    ensures out.0 in out.1.observations && out.1.observations[out.0] == o.(id := Some(out.0))
    ensures out.1 == s.(observations := s.observations[out.0 := o.(id := Some(out.0))],
                        nextObservation := out.1.nextObservation)
  {
    var k := s.nextObservation;
    (k, s.(observations := s.observations[k := o.(id := Some(k))], nextObservation := k + 1))
  }

  /** Under the serial discipline the search finds a derived feature exactly when one exists. */
  lemma FoiByLocationComplete(s: Store, loc: Id, k: Id)
    requires Valid(s)
    requires k in s.fois && s.fois[k].originalLocationId == Some(loc)
    ensures FoiByLocation(s, loc).Some?
    ensures FoiDedup(s) ==> FoiByLocation(s, loc) == Some(k)
  {
  }

  /** The database's GetObservation: the row under the id's key, or not found. */
  function GetStoredObservation(s: Store, id: RawId): (r: Result<Observation, Error>)
    ensures r.Ok? <==> ToIntId(id) in s.observations
    ensures r.Ok? ==> r.value == s.observations[ToIntId(id)]
    ensures r.Err? ==> r.error == NotFound(EntityNotFound(ObservationEntity))
  {
    var k := ToIntId(id);
    if k in s.observations then Ok(s.observations[k]) else Err(NotFound(EntityNotFound(ObservationEntity)))
  }
}
