# Observation write path and path normalisation of a SensorThings server

This project models two pieces of a SensorThings API server in Dafny.

1. **The Observation orchestration layer** (`src/sensorthings/api/observation.go`). It covers:
   - reads: option checking, then shaping each collection page into a response that carries the count and the next link;
   - the FeatureOfInterest resolver: Datastream → Thing → first Location → an existing or a newly derived FeatureOfInterest, deduplicated by original location;
   - the Observation write path: mandatory fields, Datastream existence, the three-way FeatureOfInterest branch (absent, deep insert, by id), persisting the row, then publishing two notifications;
   - refusal of deep patches, and deletion.
2. **The path rewrite of the `LowerCaseURI` middleware** (`src/http/gostserver.go`). A request path is lower-cased unless it mentions `dashboard` in any casing; such a path is forwarded unchanged.

The database is an immutable `Store` value. It holds:
- the set of datastreams, the thing of each datastream, and each thing's ordered locations;
- the FeatureOfInterest and Observation tables, each with its serial counter;
- an append-only outbox of published `(topic, payload)` messages.

Every write is a function from a store to a `(result, new store)` pair. Publishing means appending to the outbox.

The following collaborators' code is not part of this model, so each one is an arbitrary function held in the `Services` and `Rules` datatypes:
- `QueryOptionsSupported`, `ProcessGetRequest`, `CreateNextLink` and `SetAllLinks`;
- JSON marshalling;
- the database's collection queries;
- `FeatureOfInterest.ContainsMandatoryParams`;
- the database's own row constraints.

Modules:
- `Results`: `Option` and `Result`.
- `Decimal`: the text of an integer key (`toStringID` on a key), its parse, and the proof that parsing a key's text gives the key back.
- `Entities`: the entity datatypes, the errors, `ToIntId` and the Observation's mandatory fields.
- `Store`: the store, its serial-key invariant `Valid`, the dedup invariant `FoiDedup`, and the lookups and inserts.
- `Resolver`: `GetLocationByDatastreamID`, `ConvertLocationToFoi` and `CopyLocationToFoi`.
- `ObservationApi`: the read, post, patch and delete endpoints.
- `PathNormalization`: `NormalizePath` and its properties.

Two behaviours of the code worth noting, which the model keeps:
- When the Thing has no Location, `GetLocationByDatastreamID` returns no location and no error (`observation.go:99-101`). It is not a "not found" failure. `CopyLocationToFoi` turns that outcome, and every lookup error (the errors are discarded at line 122), into a conflict. `PostObservation` then reports a bad request.
- A database failure after a FeatureOfInterest was derived or deep-inserted keeps that feature; nothing is rolled back. `PostObservation` states this: the feature table after a failed persist is the one the FeatureOfInterest step produced.

## Model

| member | source | states |
|---|---|---|
| ObservationApi.GetObservation | src/sensorthings/api/observation.go:16-29 | rejected options give the checker's error without a store read; otherwise the row under the id's key, post-processed, or not found exactly when no such row exists |
| ObservationApi.GetObservations | src/sensorthings/api/observation.go:32-40 | rejected options give the checker's error; otherwise the database's page for all observations shaped by processObservations |
| ObservationApi.GetObservationsByFeatureOfInterest | src/sensorthings/api/observation.go:43-51 | same as the previous row, for the page of one FeatureOfInterest's observations |
| ObservationApi.GetObservationsByDatastream | src/sensorthings/api/observation.go:54-62 | same as the previous row, for the page of one Datastream's observations |
| ObservationApi.ListObservations | src/sensorthings/api/observation.go:33-39 | the shared shape of the three collection reads: the option check comes before the query, and the query result goes unchanged into processObservations |
| ObservationApi.ReadsRejectedBeforeStore | src/sensorthings/api/observation.go:16-62 | when the options are rejected, every read gives the same answer on any two stores, so the store is never consulted |
| ObservationApi.ProcessEach | src/sensorthings/api/observation.go:69-73 | each row is post-processed in place: same length, and row i of the output comes from row i of the input |
| ObservationApi.ProcessObservations | src/sensorthings/api/observation.go:64-81 | an error is passed on and no response is built; otherwise Count is the database count, NextLink is built from that count, and Data keeps the input's length and order |
| Store.GetStoredObservation | src/sensorthings/api/observation.go:22-25 | the row under the id's key exists exactly when the lookup succeeds; otherwise not found |
| Resolver.GetLocationByDatastreamID | src/sensorthings/api/observation.go:85-105 | a missing datastream gives "Datastream not found"; a datastream without a thing gives "Thing by datastream not found"; otherwise the thing's first location, or no location and no error when the list is empty |
| Resolver.ConvertLocationToFoi | src/sensorthings/api/observation.go:108-115 | description, encoding type and geometry come from the location, the original location id is the location's id, and the name stays empty |
| Store.FoiSearch | src/sensorthings/api/observation.go:127 | the first key in a range whose feature was derived from the location, or none if no key in the range has one |
| Store.FoiByLocation | src/sensorthings/api/observation.go:127 | a found feature was derived from the location; on a valid store, none is found only if no feature was derived from it |
| Store.FoiByLocationComplete | src/sensorthings/api/observation.go:127-128 | on a valid store, a derived feature is always found, and under the dedup invariant it is that exact feature |
| Store.InsertFoi | src/sensorthings/api/observation.go:131 | the new feature gets a key no row has, at or above the counter, the counter moves past it (so no key is handed out twice), only the feature table changes, and the serial invariant is kept |
| Store.InsertObservation | src/sensorthings/api/observation.go:181 | the new row gets a key no row has, at or above the counter, the counter moves past it (so a deleted row's key is never reused), and the row carries that key, only the observation table changes, and the serial invariant is kept |
| Resolver.CopyLocationToFoi | src/sensorthings/api/observation.go:119-144 | no location gives a conflict and no write; an existing feature for the location is reused and nothing is added; otherwise exactly one feature derived from the location is added under a fresh key and its id is returned, and this creation succeeds exactly when the database accepts the derived row (a refusal is the database's error, with no write); the returned id always names a feature derived from the first location; serial and dedup invariants are kept |
| Resolver.CopyLocationToFoiIdempotent | src/sensorthings/api/observation.go:125-140 | a second copy on the store left by the first returns the same id and writes nothing |
| Resolver.CopyLocationToFoiFrame | src/sensorthings/api/observation.go:119-144 | the copy depends only on the datastream, thing, location and feature tables, and writes only the feature table |
| Entities.MissingParams | src/sensorthings/api/observation.go:148-151 | the check passes exactly when result and Datastream are both present, and it names every missing field |
| Entities.ToIntId | src/sensorthings/api/observation.go:155 | an id made of digits maps to its value; any other id maps to 0, the zero value taken when the conversion fails |
| Decimal.Render | src/sensorthings/api/observation.go:198-200 | the text of a key is a non-empty run of digits with no leading zero |
| Decimal.Parse | src/sensorthings/api/observation.go:155 | the parse succeeds exactly on a non-empty run of digits |
| Decimal.RenderValue | src/sensorthings/api/observation.go:198-200 | the digits of a key's text evaluate back to the key |
| Decimal.ParseRender | src/sensorthings/api/observation.go:198-200 | parsing the text of a key gives the key back |
| Decimal.RenderInjective | src/sensorthings/api/observation.go:198-200 | distinct keys have distinct texts |
| Entities.KeyTextRoundTrip | src/sensorthings/api/observation.go:135-137 | the id text returned for a feature resolves to that feature's key |
| ObservationApi.PostFeatureOfInterest | src/sensorthings/api/observation.go:175 | missing mandatory fields give those errors and no write; with the fields present, the post succeeds exactly when the database accepts the row, and a refusal gives the database's error and no write; otherwise exactly one feature is added under a fresh key, with no original location; both invariants are kept |
| ObservationApi.ResolveFoi | src/sensorthings/api/observation.go:162-179 | absent: the derived id is used, and a derivation failure is a bad request; no id: the nested feature is created, and a creation failure is a conflict; with id: the reference is used unchanged with no write; only the feature table can change |
| ObservationApi.PersistObservation | src/sensorthings/api/observation.go:181-184 | the row is stored under a fresh key exactly when its feature exists and the database accepts it; a failure writes nothing |
| ObservationApi.PostObservation | src/sensorthings/api/observation.go:147-196 | missing fields or an unknown datastream fail with no write and no publish; past those checks, a failure of the FeatureOfInterest step or of the persist is returned as it is, and the post succeeds whenever both succeed; a failure persists no observation and publishes nothing; success stores exactly one row built from the input, then appends exactly two messages carrying the linked row, to `Datastreams(<id>)/Observations` and to `Observations`; the per-branch FeatureOfInterest outcomes hold; relation tables are never written; invariants are kept |
| ObservationApi.FeaturelessPostSucceeds | src/sensorthings/api/observation.go:147-196 | a feature-less post on a valid store succeeds when its fields and datastream pass the checks, the datastream's thing has a location, and the database accepts the derived feature when one must be created and the observation row carrying that feature's id |
| ObservationApi.PostedObservationUsesDerivedFoi | src/sensorthings/api/observation.go:163-172 | an observation posted without a feature references the feature derived from its datastream's first location |
| ObservationApi.PostTwiceReusesFoi | src/sensorthings/api/observation.go:163-181 | posting the same feature-less observation twice succeeds both times with the same feature reference and creates no second feature |
| ObservationApi.DatastreamTopicInjective | src/sensorthings/api/observation.go:192-193 | the datastream topic determines the datastream id and differs from the global `Observations` topic |
| ObservationApi.PostObservationByDatastream | src/sensorthings/api/observation.go:203-208 | it is PostObservation with the Datastream reference set to the given id; it never reports a missing Datastream, and on success the first message goes to that datastream's topic |
| ObservationApi.MergePatch | src/sensorthings/api/observation.go:216 | attributes present in the patch replace the row's; the id and relations stay as they were |
| ObservationApi.PatchObservation | src/sensorthings/api/observation.go:211-217 | a patch carrying a Datastream or FeatureOfInterest is a bad request with no store change; otherwise it succeeds exactly when the row exists, and only that row changes |
| ObservationApi.PatchObservationIdempotent | src/sensorthings/api/observation.go:211-217 | applying the same successful patch again returns the same row and leaves the store as it was |
| ObservationApi.DeleteObservation | src/sensorthings/api/observation.go:220-222 | the row is removed exactly when it exists, and nothing else changes; otherwise not found with no change |
| ObservationApi.GetAfterPost | src/sensorthings/api/observation.go:16-29 | a freshly posted observation is read back, post-processed, under the text of its new key |
| ObservationApi.DeleteUndoesPost | src/sensorthings/api/observation.go:181-222 | deleting a freshly posted observation by its key text gives back the original observation table |
| PathNormalization.LowerChar | src/http/gostserver.go:77 | the result is never an upper-case letter; other characters are kept; letters shift by the ASCII case distance |
| PathNormalization.ToLower | src/http/gostserver.go:77 | the result has the input's length, and each character is the lower-case form of the input character |
| PathNormalization.ToLowerFixesLower | src/http/gostserver.go:77 | lower-casing a string with no upper-case letter changes nothing |
| PathNormalization.ContainsIff | src/http/gostserver.go:72 | the substring search succeeds exactly when the pattern occurs at some offset |
| PathNormalization.ContainsLowerIff | src/http/gostserver.go:72 | searching the lower-cased path for `dashboard` is exactly a case-insensitive search of the original path |
| PathNormalization.NormalizePath | src/http/gostserver.go:71-104 | a path that mentions `dashboard` in any casing is returned unchanged; any other path is returned as its lower-case form |
| PathNormalization.NormalizePathRule | src/http/gostserver.go:71-104 | a dashboard path is forwarded unchanged with its casing; any other path is forwarded as its lower-case form, with no upper-case letter and the same length |
| PathNormalization.NormalizePathIdempotent | src/http/gostserver.go:72-103 | normalising an already normalised path changes nothing |
| PathNormalization.NormalizePathCaseInsensitive | src/http/gostserver.go:72-77 | paths that differ only in case are both dashboard paths or neither, and outside the dashboard they normalise to the same path |
| PathNormalization.DashboardPathUntouched | src/http/gostserver.go:72-75 | `/DashBoard/x` is forwarded as it is |
| PathNormalization.ResourcePathNoDashboard | src/http/gostserver.go:72 | `/Things(1)/Datastreams` does not mention the dashboard in any casing |
| PathNormalization.LowerResourcePath | src/http/gostserver.go:77 | `/Things(1)/Datastreams` lower-cases to `/things(1)/datastreams` |
| PathNormalization.ResourcePathLowered | src/http/gostserver.go:77-103 | `/Things(1)/Datastreams` is forwarded as `/things(1)/datastreams` |

Three helpers that model source code have no contract of their own and so no row; their meaning is stated elsewhere:
- `PathNormalization.Contains` (`strings.Contains`, `src/http/gostserver.go:72`) by `PathNormalization.ContainsIff`.
- `ObservationApi.DatastreamTopic` (`src/sensorthings/api/observation.go:192`) by `ObservationApi.DatastreamTopicInjective` and the outbox clause of `ObservationApi.PostObservation`.
- `Store.LocationsOf` (`GetLocationsByThing`, `src/sensorthings/api/observation.go:98`) by the contract of `Resolver.GetLocationByDatastreamID`.

## Left out

- Transport: `Start`, `Stop`, `CreateServer`, `ListenAndServe`/`ListenAndServeTLS`, the handler chaining in `LowerCaseURI`, logging, and the commented-out accepted-paths check. They are plumbing or dead code; only the rewrite of the path string is modelled.
- Unicode in `strings.ToLower`: only ASCII letters are folded, and strings are sequences of characters rather than UTF-8 bytes.
- The internals of `QueryOptionsSupported`, `ProcessGetRequest`, `CreateNextLink`, `SetAllLinks`, `json.Marshal`, `FeatureOfInterest.ContainsMandatoryParams`, the database's collection queries and its row constraints. Their code is not part of this model, so each one is an arbitrary function parameter.
- `Observation.ContainsMandatoryParams`: its code is not part of this model. It is modelled concretely as requiring `result` and `Datastream` to be present, and as reporting every missing field.
- Publishing: the MQTT transport, its QoS argument and its failures are not modelled. Publishing always appends to the outbox, since the source ignores publish failures.
- Concurrency: the check-then-create race between two concurrent `CopyLocationToFoi` calls is not modelled. The model is sequential.
- Resolver.CopyLocationToFoi: the lookup of an existing feature by location cannot fail in the model. In the source its error is discarded (line 127), so a failed lookup makes even a single sequential call create a second feature for the same location. The preservation of `FoiDedup` rests on the lookup never failing and is not a property of the source in that case.
- ObservationApi.PostObservation: the source writes into the caller's payload. It sets `observation.FeatureOfInterest` at lines 171-172 and 178, even when the persist later fails, and `PostObservationByDatastream` sets `observation.Datastream` at line 206. The model's payload is an immutable value and these writes are not modelled. So re-posting the same Go object, which would then take the by-id branch, is not modelled; `PostTwiceReusesFoi` is about two posts of equal, fresh payloads.
- Untyped ids: an id is modelled as the text `%v` prints for it. The database's conversion (`postgis.ToIntID`) is modelled as a decimal parse of that text, so numbers sent as JSON floats, signs and ids beyond 64 bits are not modelled. A Datastream reference always carries an id.
- Store.GetStoredObservation: query options do not affect the single-row lookup; expansion and projection are left to `ProcessGetRequest`.
- Resolver.GetLocationByDatastreamID: the location query itself never fails in the model. A thing without an entry has the empty list, so the `err != nil` half of line 99 is not modelled.
- ObservationApi.PersistObservation: the database's own checks on an Observation row are reduced to the referenced FeatureOfInterest existing plus an arbitrary acceptance predicate. The foreign-key check on the Datastream is not modelled, because the API has already checked it.
- ObservationApi.PostFeatureOfInterest: the API's FeatureOfInterest creation lives outside this model. It is reduced to the mandatory-field check and one insert; any links or notifications it produces are not modelled. A client cannot set the original location, so a deep-inserted feature is stored with none.
- ObservationApi.MergePatch: the database's field-level patch is reduced to the two modelled attributes, `result` and `phenomenonTime`; the other Observation attributes are not modelled.
