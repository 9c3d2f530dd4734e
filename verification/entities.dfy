/** The SensorThings entities the observation write path touches, the
    errors it reports, and how untyped identifiers become database keys. */
module Entities {
  import opened Results
  import Decimal

  /** A database key (a serial column: keys handed out start at 1). */
  type Id = nat

  /** An identifier as a client sent it, kept as the text `%v` prints for it. */
  type RawId = string

  /** A GeoJSON geometry, kept as opaque text. */
  type Geometry = string

  datatype Location = Location(
    id: Id,
    name: string,
    description: string,
    encodingType: string,
    location: Geometry)

  /** A FeatureOfInterest row. `originalLocationId` is set only on features
      derived from a Thing's Location and is what deduplication keys on. */
  datatype FeatureOfInterest = FeatureOfInterest(
    name: string,
    description: string,
    encodingType: string,
    feature: Geometry,
    originalLocationId: Option<Id>)

  /** A FeatureOfInterest as it appears inside an Observation payload:
      with an id it references an existing feature, without one it is a
      deep insert whose body must be created first. */
  datatype FoiRef = FoiRef(id: Option<RawId>, body: FeatureOfInterest)

  datatype DatastreamRef = DatastreamRef(id: RawId)

  /** An Observation payload or row; relations are nil (`None`) when omitted. */
  datatype Observation = Observation(
    id: Option<Id>,
    phenomenonTime: Option<string>,
    result: Option<string>,
    datastream: Option<DatastreamRef>,
    featureOfInterest: Option<FoiRef>)

  /** A notification handed to the message transport. */
  datatype Message = Message(topic: string, payload: string)

  datatype EntityKind = FeatureOfInterestEntity | ObservationEntity

  /** Why an operation failed; the variant names the message the source reports. */
  datatype Reason =
    | DatastreamNotFound
    | ThingByDatastreamNotFound
    | NoLocationForThing
    | DatastreamDoesNotExist(key: int)
    | CannotCopyLocation
    | CannotCreateDeepInsertedFoi
    | CannotDeepPatch
    | EntityNotFound(entity: EntityKind)
    | ConstraintViolated(entity: EntityKind)

  /** Errors, by the kind of response they map to. `Plain` is an error
      created without a kind. */
  datatype Error =
    | Plain(reason: Reason)
    | BadRequest(reason: Reason)
    | Conflict(reason: Reason)
    | NotFound(reason: Reason)
    | MissingParam(field: string)

  /** The database's conversion of an identifier to its integer key. The
      conversion's failure flag is ignored by the callers, so an id that is
      not a run of digits becomes the zero value, which names no row. */
  function ToIntId(raw: RawId): (k: Id)
    ensures Decimal.Parse(raw).Some? ==> k == Decimal.Parse(raw).value
    ensures Decimal.Parse(raw).None? ==> k == 0
  {
    match Decimal.Parse(raw)
    case Some(n) => n
    case None => 0
  }

  /** `toStringID` applied to a database key. */
  function KeyText(k: Id): RawId {
    Decimal.Render(k)
  }

  /** The key text of a row resolves back to the row's key. */
  lemma KeyTextRoundTrip(k: Id)
    ensures ToIntId(KeyText(k)) == k
  {
    Decimal.ParseRender(k);
  }

  /** Observation.ContainsMandatoryParams: `result` and `Datastream` must be
      present; every missing field is reported, not only the first. */
  function MissingParams(o: Observation): (errs: seq<Error>)
    ensures |errs| == 0 <==> o.result.Some? && o.datastream.Some?
    ensures MissingParam("result") in errs <==> o.result.None?
    ensures MissingParam("Datastream") in errs <==> o.datastream.None?
  {
    (if o.result.None? then [MissingParam("result")] else [])
    + (if o.datastream.None? then [MissingParam("Datastream")] else [])
  }
}
