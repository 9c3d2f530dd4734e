/** Deriving a FeatureOfInterest for an Observation posted without one:
    Datastream -> Thing -> first Location -> (existing or new) FeatureOfInterest. */
module Resolver {
  import opened Results
  import opened Entities
  import opened Store

  /** GetLocationByDatastreamID: the first location of the datastream's thing.
      A thing without locations yields no location and no error. */
  function GetLocationByDatastreamID(s: Store, ds: RawId): (r: Result<Option<Location>, Error>)
    ensures ToIntId(ds) !in s.datastreams ==> r == Err(Plain(DatastreamNotFound))
    ensures ToIntId(ds) in s.datastreams && ToIntId(ds) !in s.thingOf ==> r == Err(Plain(ThingByDatastreamNotFound))
    ensures r.Ok? <==> ToIntId(ds) in s.datastreams && ToIntId(ds) in s.thingOf
    ensures r.Ok? ==> (r.value.None? <==> |LocationsOf(s, s.thingOf[ToIntId(ds)])| == 0)
    ensures r.Ok? && r.value.Some? ==> r.value.value == LocationsOf(s, s.thingOf[ToIntId(ds)])[0]
  {
    var d := ToIntId(ds);
    if d !in s.datastreams then Err(Plain(DatastreamNotFound))
    else if d !in s.thingOf then Err(Plain(ThingByDatastreamNotFound))
    else
      var ls := LocationsOf(s, s.thingOf[d]);
      if |ls| == 0 then Ok(None) else Ok(Some(ls[0]))
  }

  /** The location a feature can be derived from; errors and the empty list both give none. */
  function FirstLocation(s: Store, ds: RawId): Option<Location> {
    match GetLocationByDatastreamID(s, ds)
    case Ok(Some(l)) => Some(l)
    case _ => None
  }

  /** ConvertLocationToFoi: a feature carrying the location's description,
      encoding type and geometry, remembering the location it came from.
      The name is not copied. */
  function ConvertLocationToFoi(l: Location): (f: FeatureOfInterest)
    ensures f.description == l.description
    ensures f.encodingType == l.encodingType
    ensures f.feature == l.location
    ensures f.originalLocationId == Some(l.id)
    ensures f.name == ""
  {
    FeatureOfInterest("", l.description, l.encodingType, l.location, Some(l.id))
  }

  /** `raw` is the key text of a feature in `s` derived from location `loc`. */
  ghost predicate NamesFoiOf(s: Store, raw: RawId, loc: Id) {
    ToIntId(raw) in s.fois && s.fois[ToIntId(raw)].originalLocationId == Some(loc)
  }

  /** CopyLocationToFoi: get-or-create the feature derived from the datastream's
      first location, returning its key as text. */
  function CopyLocationToFoi(rules: Rules, s: Store, ds: RawId): (out: (Result<RawId, Error>, Store))
    // no location, whatever the reason: conflict, nothing written
    ensures FirstLocation(s, ds).None? ==> out == (Err(Conflict(NoLocationForThing)), s)
    // only the feature table changes, and only on success
    ensures out.1 == s.(fois := out.1.fois, nextFoi := out.1.nextFoi)
    ensures out.0.Err? ==> out.1 == s
    // the returned id names a feature derived from the first location
    ensures out.0.Ok? ==> FirstLocation(s, ds).Some? && NamesFoiOf(out.1, out.0.value, FirstLocation(s, ds).value.id)
    // a feature for that location exists: reuse it, add nothing
    ensures Valid(s) && FirstLocation(s, ds).Some? ==>
      forall k :: k in s.fois && s.fois[k].originalLocationId == Some(FirstLocation(s, ds).value.id) ==>
        out.1 == s && out.0.Ok? && (FoiDedup(s) ==> out.0.value == KeyText(k))
    // none exists: add exactly one, derived from the location, under a fresh key
    ensures Valid(s) && FirstLocation(s, ds).Some? && out.1 != s ==>
      var l := FirstLocation(s, ds).value;
      && (forall k :: k in s.fois ==> s.fois[k].originalLocationId != Some(l.id))
      && s.nextFoi !in s.fois
      && out.1.fois == s.fois[s.nextFoi := ConvertLocationToFoi(l)]
      && |out.1.fois| == |s.fois| + 1
      && out.0 == Ok(KeyText(s.nextFoi))
    // ... and that creation happens exactly when the database accepts the derived row
    ensures (Valid(s) && FirstLocation(s, ds).Some?
             && (forall k :: k in s.fois ==> s.fois[k].originalLocationId != Some(FirstLocation(s, ds).value.id))) ==>
      && (out.0.Ok? <==> rules.acceptsFoi(ConvertLocationToFoi(FirstLocation(s, ds).value)))
      && (out.0.Err? ==> out.0.error == Plain(ConstraintViolated(FeatureOfInterestEntity)))
    ensures Valid(s) ==> Valid(out.1)
    ensures Valid(s) && FoiDedup(s) ==> FoiDedup(out.1)
  {
    var g := GetLocationByDatastreamID(s, ds);
    if g.Err? || g.value.None? then (Err(Conflict(NoLocationForThing)), s)
    else
      var l := g.value.value;
      match FoiByLocation(s, l.id)
      case Some(k) =>
        KeyTextRoundTrip(k);
        (Ok(KeyText(k)), s)
      case None =>
        var f := ConvertLocationToFoi(l);
        if !rules.acceptsFoi(f) then (Err(Plain(ConstraintViolated(FeatureOfInterestEntity))), s)
        else
          var (k, s1) := InsertFoi(s, f);
          KeyTextRoundTrip(k);
          (Ok(KeyText(k)), s1)
  }

  /** Copying a second time, on the store the first copy produced, returns
      the same id and writes nothing: the first copy's feature is found. */
  lemma CopyLocationToFoiIdempotent(rules: Rules, s: Store, ds: RawId)
    requires Valid(s)
    requires CopyLocationToFoi(rules, s, ds).0.Ok?
    ensures CopyLocationToFoi(rules, CopyLocationToFoi(rules, s, ds).1, ds) == CopyLocationToFoi(rules, s, ds)
  {
  }

  /** The copy reads only the datastream, thing, location and feature tables:
      two stores that agree on those get the same answer and the same feature writes. */
  lemma CopyLocationToFoiFrame(rules: Rules, s: Store, t: Store, ds: RawId)
    requires t.datastreams == s.datastreams && t.thingOf == s.thingOf && t.locationsOf == s.locationsOf
    requires t.fois == s.fois && t.nextFoi == s.nextFoi
    ensures CopyLocationToFoi(rules, t, ds).0 == CopyLocationToFoi(rules, s, ds).0
    ensures CopyLocationToFoi(rules, t, ds).1
         == t.(fois := CopyLocationToFoi(rules, s, ds).1.fois, nextFoi := CopyLocationToFoi(rules, s, ds).1.nextFoi)
  {
  }
}
