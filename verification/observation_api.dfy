/** The Observation endpoints of the API layer: option checking and
    response shaping around reads, and the write path that validates an
    Observation, resolves its FeatureOfInterest, persists it and publishes it. */
module ObservationApi {
  import opened Results
  import opened Entities
  import opened Store
  import Resolver

  /** A parsed set of query options; its grammar is not modelled. */
  datatype QueryOptions = QueryOptions(text: string)

  /** Which observations a collection request asks for. */
  datatype Scope = AllObservations | ByFeatureOfInterest(foi: RawId) | ByDatastream(datastream: RawId)

  /** What the database answers to a collection query: the rows of the page,
      the total count, and an error if the query failed. */
  datatype Page = Page(items: seq<Observation>, count: int, err: Option<Error>)

  datatype ArrayResponse = ArrayResponse(count: int, nextLink: string, data: seq<Observation>)

  /** The collaborators the API layer calls but whose behaviour is not part
      of this model; each is an arbitrary function. */
  datatype Services = Services(
    rules: Rules,
    queryOptionsSupported: QueryOptions -> Option<Error>,      // the error, if an option is not allowed for Observations
    processGetRequest: (Observation, QueryOptions) -> Observation,
    createNextLink: (int, string, QueryOptions) -> string,
    setAllLinks: (Observation, string) -> Observation,
    externalServerUri: string,
    marshal: Observation -> string,                           // the JSON text of a published Observation
    queryObservations: (Store, Scope, QueryOptions) -> Page,  // the database's collection queries
    foiMandatoryParams: FeatureOfInterest -> seq<Error>)      // FeatureOfInterest.ContainsMandatoryParams

  /** The topic for a datastream's observations; `ds` is the id as the client sent it. */
  function DatastreamTopic(ds: RawId): string {
    "Datastreams(" + ds + ")/Observations"
  }

  const ObservationsTopic: string := "Observations"

  /** The FeatureOfInterest reference put on an Observation whose feature was derived. */
  const EmptyFoi: FeatureOfInterest := FeatureOfInterest("", "", "", "", None)

  // ---------------------------------------------------------------------
  // Reads

  function GetObservation(svc: Services, s: Store, id: RawId, qo: QueryOptions, path: string): (r: Result<Observation, Error>)
    ensures svc.queryOptionsSupported(qo).Some? ==> r == Err(svc.queryOptionsSupported(qo).value)
    ensures svc.queryOptionsSupported(qo).None? ==> (r.Ok? <==> ToIntId(id) in s.observations)
    ensures svc.queryOptionsSupported(qo).None? && r.Err? ==> r.error == NotFound(EntityNotFound(ObservationEntity))
    ensures r.Ok? ==> r.value == svc.processGetRequest(s.observations[ToIntId(id)], qo)
  {
    match svc.queryOptionsSupported(qo)
    case Some(e) => Err(e)
    case None =>
      match GetStoredObservation(s, id)
      case Err(e) => Err(e)
      case Ok(o) => Ok(svc.processGetRequest(o, qo))
  }

  /** Post-processes every row of a page, keeping length and order. */
  function ProcessEach(svc: Services, items: seq<Observation>, qo: QueryOptions): (r: seq<Observation>)
    ensures |r| == |items|
    ensures forall i :: 0 <= i < |items| ==> r[i] == svc.processGetRequest(items[i], qo)
    decreases |items|
  {
    if items == [] then [] else [svc.processGetRequest(items[0], qo)] + ProcessEach(svc, items[1..], qo)
  }

  /** processObservations: a query error is passed on as it is; otherwise the
      response carries the database's count, the next link for that count and
      the post-processed rows in the database's order. */
  function ProcessObservations(svc: Services, items: seq<Observation>, qo: QueryOptions, path: string,
                               count: int, err: Option<Error>): (r: Result<ArrayResponse, Error>)
    ensures err.Some? ==> r == Err(err.value)
    ensures err.None? ==> r.Ok?
    ensures r.Ok? ==> r.value.count == count && r.value.nextLink == svc.createNextLink(count, path, qo)
    ensures r.Ok? ==> |r.value.data| == |items|
    ensures r.Ok? ==> forall i :: 0 <= i < |items| ==> r.value.data[i] == svc.processGetRequest(items[i], qo)
  {
    if err.Some? then Err(err.value)
    else Ok(ArrayResponse(count, svc.createNextLink(count, path, qo), ProcessEach(svc, items, qo)))
  }

  /** The shape shared by the collection endpoints: check the options, query, shape the page. */
  function ListObservations(svc: Services, s: Store, scope: Scope, qo: QueryOptions, path: string): (r: Result<ArrayResponse, Error>)
    ensures svc.queryOptionsSupported(qo).Some? ==> r == Err(svc.queryOptionsSupported(qo).value)
    ensures svc.queryOptionsSupported(qo).None? ==>
      var page := svc.queryObservations(s, scope, qo);
      r == ProcessObservations(svc, page.items, qo, path, page.count, page.err)
  {
    match svc.queryOptionsSupported(qo)
    case Some(e) => Err(e)
    case None =>
      var page := svc.queryObservations(s, scope, qo);
      ProcessObservations(svc, page.items, qo, path, page.count, page.err)
  }

  function GetObservations(svc: Services, s: Store, qo: QueryOptions, path: string): (r: Result<ArrayResponse, Error>)
    ensures svc.queryOptionsSupported(qo).Some? ==> r == Err(svc.queryOptionsSupported(qo).value)
    ensures svc.queryOptionsSupported(qo).None? ==>
      var page := svc.queryObservations(s, AllObservations, qo);
      r == ProcessObservations(svc, page.items, qo, path, page.count, page.err)
  {
    ListObservations(svc, s, AllObservations, qo, path)
  }

  function GetObservationsByFeatureOfInterest(svc: Services, s: Store, foi: RawId, qo: QueryOptions, path: string): (r: Result<ArrayResponse, Error>)
    ensures svc.queryOptionsSupported(qo).Some? ==> r == Err(svc.queryOptionsSupported(qo).value)
    ensures svc.queryOptionsSupported(qo).None? ==>
      var page := svc.queryObservations(s, ByFeatureOfInterest(foi), qo);
      r == ProcessObservations(svc, page.items, qo, path, page.count, page.err)
  {
    ListObservations(svc, s, ByFeatureOfInterest(foi), qo, path)
  }

  function GetObservationsByDatastream(svc: Services, s: Store, ds: RawId, qo: QueryOptions, path: string): (r: Result<ArrayResponse, Error>)
    ensures svc.queryOptionsSupported(qo).Some? ==> r == Err(svc.queryOptionsSupported(qo).value)
    ensures svc.queryOptionsSupported(qo).None? ==>
      var page := svc.queryObservations(s, ByDatastream(ds), qo);
      r == ProcessObservations(svc, page.items, qo, path, page.count, page.err)
  {
    ListObservations(svc, s, ByDatastream(ds), qo, path)
  }

  // ---------------------------------------------------------------------
  // Writes

  /** PostFeatureOfInterest, as used for a deep insert: mandatory fields,
      then the database insert. A client cannot set the original location. */
  function PostFeatureOfInterest(svc: Services, s: Store, f: FeatureOfInterest): (out: (Result<Id, seq<Error>>, Store))
    ensures |svc.foiMandatoryParams(f)| > 0 ==> out == (Err(svc.foiMandatoryParams(f)), s)
    ensures |svc.foiMandatoryParams(f)| == 0 ==> (out.0.Ok? <==> svc.rules.acceptsFoi(f.(originalLocationId := None)))
    ensures |svc.foiMandatoryParams(f)| == 0 && out.0.Err? ==> out.0.error == [Plain(ConstraintViolated(FeatureOfInterestEntity))]
    ensures out.0.Err? ==> out.1 == s
    ensures out.0.Ok? ==> out.0.value in out.1.fois && out.1.fois[out.0.value] == f.(originalLocationId := None)
    ensures out.0.Ok? ==> out.1 == s.(fois := s.fois[out.0.value := f.(originalLocationId := None)], nextFoi := out.1.nextFoi)
    ensures Valid(s) && out.0.Ok? ==> out.0.value == s.nextFoi && out.0.value !in s.fois
    ensures Valid(s) ==> Valid(out.1)
    ensures Valid(s) && FoiDedup(s) ==> FoiDedup(out.1)
  {
    var errs := svc.foiMandatoryParams(f);
    if |errs| > 0 then (Err(errs), s)
    else
      var row := f.(originalLocationId := None);
      if !svc.rules.acceptsFoi(row) then (Err([Plain(ConstraintViolated(FeatureOfInterestEntity))]), s)
      else
        var (k, s1) := InsertFoi(s, row);
        (Ok(k), s1)
  }

  /** The three-way FeatureOfInterest branch of PostObservation. */
  function ResolveFoi(svc: Services, s: Store, o: Observation, ds: RawId): (out: (Result<FoiRef, seq<Error>>, Store))
    // absent: derive it from the datastream's thing
    ensures o.featureOfInterest.None? ==>
      var (c, s1) := Resolver.CopyLocationToFoi(svc.rules, s, ds);
      && out.1 == s1
      && (c.Err? ==> out.0 == Err([BadRequest(CannotCopyLocation)]))
      && (c.Ok? ==> out.0 == Ok(FoiRef(Some(c.value), EmptyFoi)))
    // present without id: deep insert
    ensures o.featureOfInterest.Some? && o.featureOfInterest.value.id.None? ==>
      var (c, s1) := PostFeatureOfInterest(svc, s, o.featureOfInterest.value.body);
      && out.1 == s1
      && (c.Err? ==> out.0 == Err([Conflict(CannotCreateDeepInsertedFoi)]))
      && (c.Ok? ==> out.0 == Ok(FoiRef(Some(KeyText(c.value)), s1.fois[c.value])))
    // present with id: used as it is
    ensures o.featureOfInterest.Some? && o.featureOfInterest.value.id.Some? ==> out == (Ok(o.featureOfInterest.value), s)
    ensures out.0.Ok? ==> out.0.value.id.Some?
    ensures out.0.Err? ==> out.1 == s
    ensures out.1 == s.(fois := out.1.fois, nextFoi := out.1.nextFoi)
    ensures Valid(s) ==> Valid(out.1)
    ensures Valid(s) && FoiDedup(s) ==> FoiDedup(out.1)
  {
    match o.featureOfInterest
    case None =>
      var (c, s1) := Resolver.CopyLocationToFoi(svc.rules, s, ds);
      if c.Err? then (Err([BadRequest(CannotCopyLocation)]), s1)
      else (Ok(FoiRef(Some(c.value), EmptyFoi)), s1)
    case Some(f) =>
      if f.id.None? then
        var (c, s1) := PostFeatureOfInterest(svc, s, f.body);
        if c.Err? then (Err([Conflict(CannotCreateDeepInsertedFoi)]), s1)
        else (Ok(FoiRef(Some(KeyText(c.value)), s1.fois[c.value])), s1)
      else (Ok(f), s)
  }

  /** The database's PostObservation: the referenced feature must exist and
      the row must satisfy the database's constraints. */
  function PersistObservation(svc: Services, s: Store, o: Observation): (out: (Result<Observation, seq<Error>>, Store))
    ensures out.0.Ok? <==>
      && o.featureOfInterest.Some? && o.featureOfInterest.value.id.Some?
      && ToIntId(o.featureOfInterest.value.id.value) in s.fois
      && svc.rules.acceptsObservation(o)
    ensures out.0.Err? ==> out.1 == s
    ensures out.0.Ok? ==>
      && out.0.value == o.(id := Some(s.nextObservation))
      && out.1 == s.(observations := s.observations[s.nextObservation := out.0.value],
                     nextObservation := s.nextObservation + 1)
    ensures Valid(s) ==> Valid(out.1)
  {
    if o.featureOfInterest.None? || o.featureOfInterest.value.id.None?
       || ToIntId(o.featureOfInterest.value.id.value) !in s.fois
    then (Err([NotFound(EntityNotFound(FeatureOfInterestEntity))]), s)
    else if !svc.rules.acceptsObservation(o) then (Err([Plain(ConstraintViolated(ObservationEntity))]), s)
    else
      var (k, s1) := InsertObservation(s, o);
      (Ok(s1.observations[k]), s1)
  }

  /** The input passed the mandatory-field and datastream checks. */
  predicate Admitted(s: Store, o: Observation) {
    |MissingParams(o)| == 0 && ToIntId(o.datastream.value.id) in s.datastreams
  }

  /** PostObservation. */
  function PostObservation(svc: Services, s: Store, o: Observation): (out: (Result<Observation, seq<Error>>, Store))
    // validation failures: no write, no publish
    ensures |MissingParams(o)| > 0 ==> out == (Err(MissingParams(o)), s)
    ensures |MissingParams(o)| == 0 && !Admitted(s, o) ==>
      out == (Err([BadRequest(DatastreamDoesNotExist(ToIntId(o.datastream.value.id)))]), s)
    // the relation tables are never written
    ensures out.1.datastreams == s.datastreams && out.1.thingOf == s.thingOf && out.1.locationsOf == s.locationsOf
    // a failure persists no observation and publishes nothing
    ensures out.0.Err? ==>
      out.1.observations == s.observations && out.1.nextObservation == s.nextObservation && out.1.outbox == s.outbox
    // when it succeeds: the FeatureOfInterest step and the persist both succeed; a persist error is passed back as it is
    ensures Admitted(s, o) ==>
      var (fr, s1) := ResolveFoi(svc, s, o, o.datastream.value.id);
      && (fr.Err? ==> out == (Err(fr.error), s1))
      && (fr.Ok? ==>
            var (pr, s2) := PersistObservation(svc, s1, o.(featureOfInterest := Some(fr.value)));
            && (pr.Err? ==> out == (Err(pr.error), s2))
            && (pr.Ok? ==> out.0.Ok? && out.1 == s2.(outbox := out.1.outbox)))
    // success: one row under a fresh key, then two notifications carrying the linked row
    ensures out.0.Ok? ==>
      var k := s.nextObservation;
      && Admitted(s, o)
      && k in out.1.observations
      && out.1.observations == s.observations[k := out.1.observations[k]]
      && out.1.nextObservation == k + 1
      && (Valid(s) ==> k !in s.observations && |out.1.observations| == |s.observations| + 1)
      && out.1.observations[k] == o.(id := Some(k), featureOfInterest := out.1.observations[k].featureOfInterest)
      && out.1.observations[k].featureOfInterest.Some?
      && out.1.observations[k].featureOfInterest.value.id.Some?
      && ToIntId(out.1.observations[k].featureOfInterest.value.id.value) in out.1.fois
      && out.0.value == svc.setAllLinks(out.1.observations[k], svc.externalServerUri)
      && out.1.outbox == s.outbox + [Message(DatastreamTopic(o.datastream.value.id), svc.marshal(out.0.value)),
                                     Message(ObservationsTopic, svc.marshal(out.0.value))]
    // feature absent: derived, and the derivation's failure is a bad request
    ensures Admitted(s, o) && o.featureOfInterest.None? ==>
      var (c, s1) := Resolver.CopyLocationToFoi(svc.rules, s, o.datastream.value.id);
      && (c.Err? ==> out == (Err([BadRequest(CannotCopyLocation)]), s))
      && (c.Ok? ==> out.1.fois == s1.fois)
      && (out.0.Ok? ==> out.1.observations[s.nextObservation].featureOfInterest == Some(FoiRef(Some(c.value), EmptyFoi)))
    // feature without id: deep insert, whose failure is a conflict
    ensures Admitted(s, o) && o.featureOfInterest.Some? && o.featureOfInterest.value.id.None? ==>
      var (c, s1) := PostFeatureOfInterest(svc, s, o.featureOfInterest.value.body);
      && (c.Err? ==> out == (Err([Conflict(CannotCreateDeepInsertedFoi)]), s))
      && (c.Ok? ==> out.1.fois == s1.fois)
      && (out.0.Ok? ==> out.1.observations[s.nextObservation].featureOfInterest.value.id == Some(KeyText(c.value)))
    // feature with id: used unchanged, no feature written
    ensures o.featureOfInterest.Some? && o.featureOfInterest.value.id.Some? ==>
      && out.1.fois == s.fois && out.1.nextFoi == s.nextFoi
      && (out.0.Ok? ==> out.1.observations[s.nextObservation].featureOfInterest == o.featureOfInterest)
    ensures Valid(s) ==> Valid(out.1)
    ensures Valid(s) && FoiDedup(s) ==> FoiDedup(out.1)
  {
    var missing := MissingParams(o);
    if |missing| > 0 then (Err(missing), s)
    else
      var ds := o.datastream.value.id;
      var key := ToIntId(ds);
      if key !in s.datastreams then (Err([BadRequest(DatastreamDoesNotExist(key))]), s)
      else
        var (fr, s1) := ResolveFoi(svc, s, o, ds);
        if fr.Err? then (Err(fr.error), s1)
        else
          var (pr, s2) := PersistObservation(svc, s1, o.(featureOfInterest := Some(fr.value)));
          if pr.Err? then (Err(pr.error), s2)
          else
            var linked := svc.setAllLinks(pr.value, svc.externalServerUri);
            var payload := svc.marshal(linked);
            (Ok(linked), s2.(outbox := s2.outbox + [Message(DatastreamTopic(ds), payload), Message(ObservationsTopic, payload)]))
  }

  /** PostObservationByDatastream: PostObservation with the Datastream reference set to `ds`. */
  function PostObservationByDatastream(svc: Services, s: Store, ds: RawId, o: Observation): (out: (Result<Observation, seq<Error>>, Store))
    ensures out == PostObservation(svc, s, o.(datastream := Some(DatastreamRef(ds))))
    ensures out.0.Err? ==> MissingParam("Datastream") !in out.0.error
    ensures out.0.Ok? ==> out.1.outbox[|s.outbox|].topic == DatastreamTopic(ds)
  {
    PostObservation(svc, s, o.(datastream := Some(DatastreamRef(ds))))
  }

  /** The database's field-level patch: attributes present in the patch replace the row's. */
  function MergePatch(row: Observation, patch: Observation): (r: Observation)
    ensures r.id == row.id && r.datastream == row.datastream && r.featureOfInterest == row.featureOfInterest
    ensures r.result == (if patch.result.Some? then patch.result else row.result)
    ensures r.phenomenonTime == (if patch.phenomenonTime.Some? then patch.phenomenonTime else row.phenomenonTime)
  {
    row.(phenomenonTime := if patch.phenomenonTime.Some? then patch.phenomenonTime else row.phenomenonTime,
         result := if patch.result.Some? then patch.result else row.result)
  }

  /** PatchObservation: a patch that touches the Datastream or FeatureOfInterest
      relation is refused; otherwise the row under the id is patched. */
  function PatchObservation(svc: Services, s: Store, id: RawId, patch: Observation): (out: (Result<Observation, Error>, Store))
    ensures patch.datastream.Some? || patch.featureOfInterest.Some? ==> out == (Err(BadRequest(CannotDeepPatch)), s)
    ensures out.0.Ok? <==> patch.datastream.None? && patch.featureOfInterest.None? && ToIntId(id) in s.observations
    ensures out.0.Err? ==> out.1 == s
    ensures out.0.Ok? ==>
      && out.0.value == MergePatch(s.observations[ToIntId(id)], patch)
      && out.1 == s.(observations := s.observations[ToIntId(id) := out.0.value])
    ensures Valid(s) ==> Valid(out.1)
  {
    if patch.datastream.Some? || patch.featureOfInterest.Some? then (Err(BadRequest(CannotDeepPatch)), s)
    else
      var k := ToIntId(id);
      if k !in s.observations then (Err(NotFound(EntityNotFound(ObservationEntity))), s)
      else
        var row := MergePatch(s.observations[k], patch);
        (Ok(row), s.(observations := s.observations[k := row]))
  }

  /** DeleteObservation: removes the row under the id, or reports it missing. */
  function DeleteObservation(svc: Services, s: Store, id: RawId): (out: (Option<Error>, Store))
    ensures out.0.None? <==> ToIntId(id) in s.observations
    ensures out.0.None? ==> out.1 == s.(observations := s.observations - {ToIntId(id)})
    ensures out.0.None? ==> |out.1.observations| == |s.observations| - 1
    ensures out.0.Some? ==> out == (Some(NotFound(EntityNotFound(ObservationEntity))), s)
    ensures Valid(s) ==> Valid(out.1)
  {
    var k := ToIntId(id);
    if k in s.observations then (None, s.(observations := s.observations - {k}))
    else (Some(NotFound(EntityNotFound(ObservationEntity))), s)
  }

  // ---------------------------------------------------------------------
  // Properties relating several calls

  /** Applying the same patch a second time changes nothing more. */
  lemma PatchObservationIdempotent(svc: Services, s: Store, id: RawId, patch: Observation)
    requires PatchObservation(svc, s, id, patch).0.Ok?
    ensures PatchObservation(svc, PatchObservation(svc, s, id, patch).1, id, patch) == PatchObservation(svc, s, id, patch)
  {
    var k := ToIntId(id);
    var (r, s1) := PatchObservation(svc, s, id, patch);
    assert MergePatch(r.value, patch) == r.value;
    assert s1.observations[k := r.value] == s1.observations;
  }

  /** A freshly posted observation is read back, post-processed, under its key text. */
  lemma GetAfterPost(svc: Services, s: Store, o: Observation, qo: QueryOptions, path: string)
    requires PostObservation(svc, s, o).0.Ok?
    requires svc.queryOptionsSupported(qo).None?
    ensures var (r, s1) := PostObservation(svc, s, o);
      GetObservation(svc, s1, KeyText(s.nextObservation), qo, path)
        == Ok(svc.processGetRequest(s1.observations[s.nextObservation], qo))
  {
    KeyTextRoundTrip(s.nextObservation);
  }

  /** A rejected option set is answered before the store is consulted:
      every read gives the same error whatever the store holds. */
  lemma ReadsRejectedBeforeStore(svc: Services, s: Store, t: Store, id: RawId, parent: RawId, qo: QueryOptions, path: string)
    requires svc.queryOptionsSupported(qo).Some?
    ensures GetObservation(svc, s, id, qo, path) == GetObservation(svc, t, id, qo, path)
    ensures GetObservations(svc, s, qo, path) == GetObservations(svc, t, qo, path)
    ensures GetObservationsByFeatureOfInterest(svc, s, parent, qo, path) == GetObservationsByFeatureOfInterest(svc, t, parent, qo, path)
    ensures GetObservationsByDatastream(svc, s, parent, qo, path) == GetObservationsByDatastream(svc, t, parent, qo, path)
  {
  }

  /** The datastream topic determines the datastream id, and never collides with the global topic. */
  lemma DatastreamTopicInjective(a: RawId, b: RawId)
    requires DatastreamTopic(a) == DatastreamTopic(b)
    ensures a == b
    ensures DatastreamTopic(a) != ObservationsTopic
  {
    var ta, tb := DatastreamTopic(a), DatastreamTopic(b);
    assert |a| == |b|;
    assert a == ta[12..12 + |a|];
    assert b == tb[12..12 + |b|];
  }

  /** An observation posted without a feature ends up referencing the feature
      derived from the first location of its datastream's thing. */
  lemma PostedObservationUsesDerivedFoi(svc: Services, s: Store, o: Observation)
    requires o.featureOfInterest.None?
    requires PostObservation(svc, s, o).0.Ok?
    ensures var (r, s1) := PostObservation(svc, s, o);
      var f := s1.observations[s.nextObservation].featureOfInterest.value;
      && Resolver.FirstLocation(s, o.datastream.value.id).Some?
      && f.id.Some?
      && Resolver.NamesFoiOf(s1, f.id.value, Resolver.FirstLocation(s, o.datastream.value.id).value.id)
  {
  }

  /** A feature-less post succeeds when its fields and datastream pass the
      checks, the datastream's thing has a location, and the database
      accepts the rows written: the derived feature only when one must be
      created, and the observation row. */
  lemma FeaturelessPostSucceeds(svc: Services, s: Store, o: Observation)
    requires Valid(s)
    requires Admitted(s, o) && o.featureOfInterest.None?
    requires Resolver.FirstLocation(s, o.datastream.value.id).Some?
    requires var l := Resolver.FirstLocation(s, o.datastream.value.id).value;
      (forall k :: k in s.fois ==> s.fois[k].originalLocationId != Some(l.id)) ==>
        svc.rules.acceptsFoi(Resolver.ConvertLocationToFoi(l))
    requires var c := Resolver.CopyLocationToFoi(svc.rules, s, o.datastream.value.id).0;
      c.Ok? ==> svc.rules.acceptsObservation(o.(featureOfInterest := Some(FoiRef(Some(c.value), EmptyFoi))))
    ensures PostObservation(svc, s, o).0.Ok?
  {
  }

  /** Posting the same feature-less observation twice reuses one feature:
      the second post derives the same feature id and creates no feature. */
  lemma PostTwiceReusesFoi(svc: Services, s: Store, o: Observation)
    requires Valid(s)
    requires o.featureOfInterest.None?
    requires PostObservation(svc, s, o).0.Ok?
    ensures var (r1, s1) := PostObservation(svc, s, o);
      var (r2, s2) := PostObservation(svc, s1, o);
      && r2.Ok?
      && s2.fois == s1.fois
      && s2.observations[s1.nextObservation].featureOfInterest == s1.observations[s.nextObservation].featureOfInterest
  {
    var ds := o.datastream.value.id;
    var (r1, s1) := PostObservation(svc, s, o);
    var (c, sc) := Resolver.CopyLocationToFoi(svc.rules, s, ds);
    Resolver.CopyLocationToFoiIdempotent(svc.rules, s, ds);
    var mid := sc.(observations := s1.observations, nextObservation := s1.nextObservation, outbox := s1.outbox);
    assert s1 == mid;
    Resolver.CopyLocationToFoiFrame(svc.rules, sc, s1, ds);
    assert Resolver.CopyLocationToFoi(svc.rules, s1, ds) == (c, s1);
  }

  /** Deleting a freshly posted observation by its key text restores the observation table. */
  lemma DeleteUndoesPost(svc: Services, s: Store, o: Observation)
    requires Valid(s)
    requires PostObservation(svc, s, o).0.Ok?
    ensures var (r1, s1) := PostObservation(svc, s, o);
      var (e, s2) := DeleteObservation(svc, s1, KeyText(s.nextObservation));
      e.None? && s2.observations == s.observations
  {
    KeyTextRoundTrip(s.nextObservation);
  }
}
