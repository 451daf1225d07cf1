# Smart Inclusion: a Dafny model of the API and its web pages

Smart Inclusion links people with disabilities to accessible places, to
volunteers and to an emergency SOS alert service. This project models its
core in Dafny:

- **The REST handlers of the backend.** These cover SOS alerts, volunteers,
  places and admin accounts, together with the document schemas behind them
  and the SOS router.
- **The React code that consumes them.** This is the accessibility map page
  and its two map components, the admin dashboard, the volunteers page, the
  SOS page, and the session, socket and admin-UI stores.

The model is built as follows:

- **Collections.** Each backend collection is a class that holds a map from
  id to document and a next-id counter. Insertion order is the store's
  natural order. The SOS store also records every socket.io broadcast it
  makes.
- **Handlers.** Handlers that change a collection are methods. Read-only
  handlers are functions that read the store. Every reply carries its HTTP
  status and its JSON body.
- **Page state.** The state of each page or context is a class whose
  methods are the event handlers. Outcomes of requests, confirmations and
  geolocation arrive as parameters.
- **JavaScript semantics.** Truthiness, `||` defaults, `parseFloat` and
  `split`/`trim`/`join` are written out explicitly.

Things outside the program become parameters:

- the geospatial test `near`;
- bcrypt's `hash` and `verify`;
- jsonwebtoken's `sign`;
- `parseFloat` on text (`parseText`, where `None` stands for `NaN`);
- the clock (`now`);
- the auth middleware's verdict (`tokenValid`).

The modules follow the program's files:

| module | models |
|---|---|
| `Common`, `Text`, `Query` | shared values, JavaScript string helpers, and `find/sort/limit` over a collection |
| `SosSchema`, `SosController`, `SosRoutes` | backend/models/SOS.js, backend/controllers/sosController.js, backend/routes/sosRoutes.js |
| `VolunteerSchema`, `VolunteerController` | backend/models/Volunteer.js, backend/controllers/volunteerController.js |
| `PlaceSchema`, `PlaceController` | backend/models/Place.js, backend/controllers/placeController.js |
| `AdminSchema`, `AdminController` | backend/models/Admin.js, backend/controllers/adminController.js |
| `ClientJson` | the JSON the pages receive |
| `MapPage` | frontend/src/pages/AccessibilityMap.jsx |
| `MapWidget` | frontend/src/components/map/AccessibilityMap.jsx |
| `OverviewMap` | frontend/src/components/AccessibilityMap.jsx |
| `SocketContext` | frontend/src/contexts/SocketContext.jsx |
| `SosPage` | frontend/src/pages/SOS.jsx |
| `AdminDashboard` | frontend/src/pages/AdminDashboard.jsx |
| `VolunteersPage` | frontend/src/pages/Volunteers.jsx |
| `AuthContext` | frontend/src/contexts/AuthContext.jsx |
| `AdminUiStore` | frontend/src/store/useAdminStore.js |

Four behaviours of the code are worth knowing before reading the table:

- **Status updates are not validated.** An update may store any string as
  an SOS status, because `findByIdAndUpdate` runs no validators.
- **The SOS page does not show the newest alert first.** Its list starts
  with the oldest alert, and its live feed never updates (see Findings).
- **A volunteer without coordinates is never saved.** The schema gives the
  nested `location.type` the default `'Point'` and `coordinates` none, so
  such a document is `{type: 'Point'}` alone. The `2dsphere` index refuses
  it and the request ends in the generic 500.
- **As written, the backend does not start.** backend/routes/volunteerRoutes.js:6-7
  passes `volunteerController.register` and `.login`, which are
  `undefined`, to `router.post`. Express throws when the module loads
  (backend/server.js:10), so the server never listens. Every backend reply
  in this model, and the SOS page findings, describe the handlers as they
  behave once mounted by a router that does start.

## Model

| member | source | states |
|---|---|---|
| SosSchema.NewDocumentDefaults | backend/models/SOS.js:4-12 | a new SOS document has status `open` (in the enum) and the creation time; every other field is what the caller passed |
| SosSchema.WithStatusOnlyStatus | backend/controllers/sosController.js:34-35 | a status update changes only `status`; restoring the old status gives the document back; a later update overrides an earlier one; any status can replace any other |
| SosSchema.WithStatusConforms | backend/models/SOS.js:10 | an update keeps a valid document valid exactly when the new status is one of `open`, `acknowledged`, `closed` |
| SosController.BuildSosShape | backend/controllers/sosController.js:8-13 | the stored point is `[lng, lat]` and reads back as the request's `(lat, lng)`; the document conforms to the schema with status `open`; a falsy `userId` becomes null, a falsy `message` becomes `''`, and missing metadata becomes `{}`; a truthy `userId` or `message` and given metadata are kept |
| SosController.AlertFor | backend/controllers/sosController.js:19 | the `sosAlert` carries the saved document's id, message and creation time, and coordinates that are the stored `[lng, lat]` read back as `(lat, lng)`, both non-zero |
| SosController.SosStore.constructor | backend/models/SOS.js:3-13 | an empty collection with no broadcasts |
| SosController.SosStore.CreateSos | backend/controllers/sosController.js:3-23 | a falsy `lat` or `lng` gives 400 `lat & lng required` and changes nothing. A point the `2dsphere` index refuses (longitude outside [-180, 180] or latitude outside [-90, 90]) gives the generic 500, stores nothing and broadcasts nothing. Otherwise exactly one document is appended under a fresh id, one `sosAlert` with the request's coordinates is broadcast (only when socket.io is attached), and the reply is 201 `{ok: true, sos}`. Valid statuses stay valid |
| SosController.SosStore.GetAllSos | backend/controllers/sosController.js:25-30 | at most 200 stored alerts, newest first, `min(200, n)` of them; no left-out alert is newer than a returned one |
| SosController.SosStore.UpdateStatus | backend/controllers/sosController.js:32-40 | on a stored id only that document's status changes, one `sosUpdate {id, status}` is broadcast and the updated document is returned. An unknown id changes and broadcasts nothing and gives 500 when socket.io is attached (dereferencing `null`), or 200 `null` otherwise. Statuses stay valid exactly when the new one is valid |
| SosController.NewestAlertLeads | backend/controllers/sosController.js:27 | an alert newer than every stored one heads the GET /sos listing |
| SosRoutes.Resolve | backend/routes/sosRoutes.js:6-8 | the route found has the verb and a matching pattern; no route is found only when none matches |
| SosRoutes.Dispatch | backend/routes/sosRoutes.js:6-17 | no route exactly when no registered verb and pattern match; 401 only without a valid token; a handler is reached only through a matching route whose auth, if any, the token passes |
| SosRoutes.RouteTable | backend/routes/sosRoutes.js:6-17 | POST / is public; GET / and PATCH /:id/status need a valid token; GET /public is public; nothing answers POST /ack |
| SosRoutes.StatusUpdateNeedsToken | backend/routes/sosRoutes.js:8 | without a valid token the status handler is never reached, whatever the path |
| SosRoutes.PublicSos | backend/routes/sosRoutes.js:11-17 | only open, stored alerts, newest first, `min(200, open)` of them; no open alert left out is newer than one returned |
| VolunteerController.LocationFor | backend/controllers/volunteerController.js:14-17 | a supplied `location` is kept as given; otherwise truthy `lat` and `lng` give the point `[lng, lat]`, which reads back as `(lat, lng)`; otherwise there is no point, and the schema default takes its place |
| VolunteerController.SkillsFor | backend/controllers/volunteerController.js:25 | an array of skills is kept; anything else becomes `[]` |
| VolunteerController.BuildVolunteerShape | backend/controllers/volunteerController.js:20-28 | the name is kept; the volunteer is verified exactly when the request says `true`; the document conforms exactly when any supplied location has type `Point` (the defaulted `{type: 'Point'}` always does) |
| VolunteerController.StoredLocation | backend/models/Volunteer.js:10-13 | the document's `location` is the point `LocationFor` gives; without one it is the default `{type: 'Point'}` with no coordinates, which the `2dsphere` index refuses |
| VolunteerController.SavedOnlyWithPoint | backend/models/Volunteer.js:10-17 | a request with no supplied location and a missing or zero `lat` or `lng` is never saved; a saved volunteer always has the point `LocationFor` gives, and the index accepts it |
| VolunteerController.VolunteerStore.constructor | backend/models/Volunteer.js:3-15 | an empty collection |
| VolunteerController.VolunteerStore.CreateVolunteer | backend/controllers/volunteerController.js:4-35 | a falsy name gives 400 `{error: 'Name is required'}`; a document failing the schema, or with a location the `2dsphere` index refuses, gives 500; neither stores anything. A request with no coordinates is one of the refused ones (its location is the bare default). Otherwise exactly one volunteer is appended and returned with 201 |
| VolunteerController.VolunteerStore.GetAll | backend/controllers/volunteerController.js:38-45 | the first `min(500, n)` volunteers in store order |
| VolunteerController.PointOf | backend/controllers/volunteerController.js:59 | the query point exists exactly when both query strings parse, and is `[lng, lat]` |
| VolunteerController.VolunteerStore.GetNearby | backend/controllers/volunteerController.js:48-70 | a missing or empty `lng` or `lat` gives 400 `lng & lat required` (the string `"0"` passes). A coordinate that does not parse gives the generic 500. Otherwise at most 100 stored volunteers come back, each with a point inside the radius (default 5000) of `[lng, lat]`. When fewer than 100 come back, every stored volunteer inside the radius is among them |
| VolunteerController.MeridianQueryAnswered | backend/controllers/volunteerController.js:50-53 | a query with `lng=0` and a parsable latitude is answered with 200, not refused |
| PlaceSchema.NewPlaceDefaults | backend/models/Place.js:3-16 | a new place is unverified, has no photos and no `addedBy`, and has the creation time; the caller's fields are kept |
| PlaceController.TagsOf | backend/controllers/placeController.js:13 | a falsy tag string gives no tags. Otherwise there is one piece per comma-separated field (commas + 1), each the trimmed field, comma-free and trimmed |
| PlaceController.TagsRoundTrip | backend/controllers/placeController.js:13 | trimmed, comma-free tags, other than the single empty tag, survive `join(',')` followed by the handler's split and trim |
| PlaceController.BuildPlaceShape | backend/controllers/placeController.js:8-14 | the stored point is `[lng, lat]`, reading back as `(lat, lng)`; the place conforms to the schema and takes the schema defaults |
| PlaceController.PlaceStore.constructor | backend/models/Place.js:3-16 | an empty collection |
| PlaceController.PlaceStore.CreatePlace | backend/controllers/placeController.js:3-21 | a falsy name, lat or lng gives 400 `name, lat, lng required` and stores nothing. A point the `2dsphere` index refuses gives the generic 500 and stores nothing. Otherwise exactly one place is appended and returned with 201 |
| PlaceController.PointOf | backend/controllers/placeController.js:31 | the query point exists exactly when both query strings parse, and is `[lng, lat]` |
| PlaceController.PlaceStore.GetNearby | backend/controllers/placeController.js:23-44 | a missing or empty `lng` or `lat` gives 400 `lng and lat required` (the string `"0"` passes). A coordinate that does not parse gives the generic 500. Otherwise at most 200 stored places come back, each inside the radius (default 3000) of `[lng, lat]` and, when `tags` is given, sharing one of its trimmed pieces. Fewer than 200 means no matching place was left out |
| PlaceController.EquatorQueryAnswered | backend/controllers/placeController.js:25-26 | a query with `lat=0` and a parsable longitude is answered with 200, not refused |
| PlaceController.PlaceStore.GetAll | backend/controllers/placeController.js:46-53 | at most 1000 stored places, newest first; none left out is newer than one returned |
| PlaceController.PlaceStore.GetById | backend/controllers/placeController.js:55-63 | the stored place with 200, or 404 `Not found` |
| PlaceController.PlaceStore.DeletePlace | backend/controllers/placeController.js:65-72 | the id is gone and every other place is unchanged; the reply is `{msg: 'Deleted'}` whether or not the id existed |
| AdminSchema.NewAdminDefaults | backend/models/Admin.js:3-9 | a new admin has role `admin`, the creation time and its email lower-cased (a fixed point of lower-casing); it conforms exactly when the email and the hash are non-empty |
| AdminController.FindByEmail | backend/controllers/adminController.js:9 | a found admin is stored and has the lower-cased email; none found means no stored admin has it |
| AdminController.LoginWith | backend/controllers/adminController.js:24-30 | an unknown email and a wrong password both give 401 `Invalid credentials`; otherwise 200 with a token signed over `{id, email, role}` that expires in `7d` |
| AdminController.LoginFailuresAlike | backend/controllers/adminController.js:24-27 | an unknown email and a wrong password produce identical replies |
| AdminController.AdminStore.constructor | backend/models/Admin.js:3-9 | an empty collection |
| AdminController.AdminStore.Register | backend/controllers/adminController.js:5-17 | falsy email or password gives 400 `email & password required`; an existing email, in any letter case, gives 400 `Admin exists`; a record failing the schema gives 500; none of these change anything. Otherwise the admin is stored with `hash(password)` and 201 sends only `{ok, id, email}`. Emails stay lower-case and unique |
| AdminController.AdminStore.Login | backend/controllers/adminController.js:20-32 | an unknown email gives 401; a known email gives 200 when its hash verifies the password and 401 otherwise; a 200 carries the token of a stored admin with that email whose hash verifies the password |
| AdminController.RegisterThenLogin | backend/controllers/adminController.js:5-30 | after registering, a login with the same password and the email typed in any letter case issues the new admin's token |
| MapPage.RawLatLng | frontend/src/pages/AccessibilityMap.jsx:31-45 | the first coordinate format present wins: GeoJSON (read as `(coords[1], coords[0])`), then truthy `lat`/`lng`, then truthy `latitude`/`longitude`; otherwise none |
| MapPage.Normalize | frontend/src/pages/AccessibilityMap.jsx:25-67 | the result is `null` exactly when no format is present or a coordinate does not parse; otherwise it carries the parsed coordinates |
| MapPage.ShortCoordinatesRejected | frontend/src/pages/AccessibilityMap.jsx:31-54 | a GeoJSON array with fewer than two entries is rejected, even when `lat`/`lng` are also present |
| MapPage.NormalizeDefaults | frontend/src/pages/AccessibilityMap.jsx:56-66 | the defaults are `Unnamed Facility`, `''`, type `ramp`, unverified, no tags and no photos; the id is `_id`, else `id`. A truthy name, description or type, a `true` verified flag and present tags or photos are kept as they are |
| MapPage.BackendPlaceNormalizes | frontend/src/pages/AccessibilityMap.jsx:56-66 | a place as the backend stores it normalises with `(lat, lng)` read back correctly, its id, tags and verified flag, and always type `ramp` |
| MapPage.FetchedPlaces | frontend/src/pages/AccessibilityMap.jsx:77-79 | exactly the places that normalise are kept, and the list never grows |
| MapPage.FetchedPlacesAppend | frontend/src/pages/AccessibilityMap.jsx:77-79 | the filter distributes over concatenation, so the original order is kept |
| MapPage.Appended | frontend/src/pages/AccessibilityMap.jsx:279-282 | the created place is appended exactly as normalising a one-element list would give it |
| MapPage.IconUrl | frontend/src/pages/AccessibilityMap.jsx:157-166 | each of `ramp`, `elevator` and `braille` has its icon; every other type falls back to the default icon |
| MapPage.ValidateAddPlace | frontend/src/pages/AccessibilityMap.jsx:244-255 | the checks run in order (no location, no type, blank name), each with its alert; validation passes exactly when all three hold |
| MapPage.ButtonMatchesValidation | frontend/src/pages/AccessibilityMap.jsx:390 | an enabled submit button implies validation passes; when not submitting, the button is disabled exactly when validation fails |
| MapPage.ValidatedPayloadAccepted | frontend/src/pages/AccessibilityMap.jsx:261-268 | a validated submission passes the backend's check exactly when the clicked point is off the equator and off the prime meridian |
| MapPage.MapPageState.constructor | frontend/src/pages/AccessibilityMap.jsx:17-20 | no selection, an empty form and no places |
| MapPage.MapPageState.ResetForm | frontend/src/pages/AccessibilityMap.jsx:311-315 | the form, the selection and its type are cleared; the places are untouched |
| MapPage.MapPageState.ClearSelection | frontend/src/pages/AccessibilityMap.jsx:305-308 | only the selection and its type are cleared |
| MapPage.MapPageState.TypeChange | frontend/src/pages/AccessibilityMap.jsx:299-302 | the form's type and the selected type both become the new type; nothing else changes |
| MapPage.MapPageState.MapClick | frontend/src/pages/AccessibilityMap.jsx:131-137 | the clicked point is selected; the form's type is adopted only when no type was selected |
| MapPage.MapPageState.FetchPlaces | frontend/src/pages/AccessibilityMap.jsx:70-87 | on success the list becomes the normalised answer; on failure there is one alert and the list is unchanged |
| MapPage.MapPageState.SubmitAddPlace | frontend/src/pages/AccessibilityMap.jsx:242-296 | a failed check gives its alert and no change. A failed request alerts the server `msg`, else the error message. On success the place is appended, the list is then replaced by the re-fetch, and the form is emptied while the selection stays |
| MapWidget.CoordsOf | frontend/src/components/map/AccessibilityMap.jsx:80-81 | `location.coordinates`, else `coordinates`, else `[]` |
| MapWidget.MarkerOf | frontend/src/components/map/AccessibilityMap.jsx:80-86 | there is a marker exactly when both coordinates are numbers, placed at `(coords[1], coords[0])` |
| MapWidget.Markers | frontend/src/components/map/AccessibilityMap.jsx:79-94 | exactly the places that get a marker, never more markers than places |
| MapWidget.BackendPlaceMarker | frontend/src/components/map/AccessibilityMap.jsx:80-86 | a stored place gets its marker at `(lat, lng)` |
| MapWidget.PayloadPlaces | frontend/src/components/map/AccessibilityMap.jsx:44-45 | an array is used as is, an object gives its `places` or `[]`, and `null` fails |
| MapWidget.MapWidgetState.constructor | frontend/src/components/map/AccessibilityMap.jsx:19-21 | the places are the prop places or `[]`; loading is the prop or `false`; there is no user location |
| MapWidget.MapWidgetState.Effect | frontend/src/components/map/AccessibilityMap.jsx:31-62 | non-empty prop places are used without fetching; otherwise the fetched places replace the list (a failure leaves it) and loading ends; the user location falls back to `(20.5937, 78.9629)` |
| OverviewMap.MarkerAt | frontend/src/components/AccessibilityMap.jsx:61-64 | there is a marker exactly when `location.coordinates` exists, at `(coords[1], coords[0])` |
| OverviewMap.MarkersOf | frontend/src/components/AccessibilityMap.jsx:60-75 | exactly the records that get a marker |
| OverviewMap.VolunteerMarker | frontend/src/components/AccessibilityMap.jsx:78-83 | a volunteer whose document holds a two-number point gets its marker at `(lat, lng)` |
| OverviewMap.StoredVolunteersMarked | frontend/src/components/AccessibilityMap.jsx:78-83 | every volunteer the backend has stored gets a marker, at the `(lat, lng)` of its stored point, since the store saves none without one |
| OverviewMap.SkillsLabelFallback | frontend/src/components/AccessibilityMap.jsx:88 | `N/A` exactly when there are no skills or only the empty one; otherwise the skills joined with `, ` |
| OverviewMap.ListOrEmpty | frontend/src/components/AccessibilityMap.jsx:22-27 | a failed request or a `null` body gives `[]`; otherwise the data |
| OverviewMap.OverviewState.constructor | frontend/src/components/AccessibilityMap.jsx:15-20 | empty lists, loading, mounted |
| OverviewMap.OverviewState.Unmount | frontend/src/components/AccessibilityMap.jsx:30 | only the mounted flag is cleared |
| OverviewMap.OverviewState.Settle | frontend/src/components/AccessibilityMap.jsx:24-29 | after an unmount nothing is set; otherwise both lists are set (failures give `[]`) and loading ends |
| SocketContext.OnAlert | frontend/src/contexts/SocketContext.jsx:26-27 | the new alert is put in front of the unchanged list |
| SocketContext.OnUpdate | frontend/src/contexts/SocketContext.jsx:37-43 | same length; the entries with the id get the status and the others are unchanged |
| SocketContext.OnUpdateProperties | frontend/src/contexts/SocketContext.jsx:38-42 | only `status` changes, only on matching entries; with no match the list is unchanged; the update is idempotent |
| SocketContext.ReplayLength | frontend/src/contexts/SocketContext.jsx:26-43 | after any run of backend broadcasts, the list has grown by exactly the number of `sosAlert` events |
| SocketContext.ReplaySnoc | frontend/src/contexts/SocketContext.jsx:26-43 | replaying one more broadcast is applying it to the replayed list |
| SocketContext.LatestAlertFirst | frontend/src/contexts/SocketContext.jsx:26-27 | whatever came before, the latest `sosAlert` heads the list |
| SocketContext.UseSocket | frontend/src/contexts/SocketContext.jsx:6-12 | outside a provider the hook throws `useSocket must be used within a SocketProvider`; inside it returns the value |
| SocketContext.SocketProviderState.constructor | frontend/src/contexts/SocketContext.jsx:15-16 | no socket, no alerts, nothing emitted |
| SocketContext.SocketProviderState.Connect | frontend/src/contexts/SocketContext.jsx:19-20 | the socket is set; nothing else changes |
| SocketContext.SocketProviderState.Receive | frontend/src/contexts/SocketContext.jsx:26-43 | a broadcast applies its handler to the list |
| SocketContext.SocketProviderState.AcknowledgeSos | frontend/src/contexts/SocketContext.jsx:52-56 | `ackSos {sosId, volunteerId}` is emitted exactly when a socket exists; the list is untouched |
| SosPage.ReversalShowsOldestFirst | frontend/src/pages/SOS.jsx:13 | reversing a newest-first list whose ends differ in time puts the oldest alert on top, so the page is not newest first |
| SosPage.InitialReversalShowsOldestFirst | frontend/src/pages/SOS.jsx:13 | for any GET /sos answer with two different times, the page as written is not newest first |
| SosPage.InitialAlerts | frontend/src/pages/SOS.jsx:13 | the intended list holds each fetched alert at its own position and is newest first when the answer is |
| SosPage.InitialAlertsNewestFirst | frontend/src/pages/SOS.jsx:13 | the intended list for any GET /sos answer is newest first |
| SosPage.EventNamesBroadcast | frontend/src/pages/SOS.jsx:20 | every event the SOS handlers emit is one of `sosAlert`, `sosUpdate`, `sosAcknowledged` |
| SosPage.LiveFeedNeverUpdates | frontend/src/pages/SOS.jsx:19-20 | for every event name the backend broadcasts, the handler as written leaves the list unchanged |
| SosPage.OnSocket | frontend/src/pages/SOS.jsx:19-20 | the intended handler prepends exactly the `sosAlert` payloads and ignores everything else |
| SosPage.BroadcastReachesPage | frontend/src/pages/SOS.jsx:19-20 | every alert the backend broadcasts reaches the intended handler and heads the list |
| SosPage.AckRemove | frontend/src/pages/SOS.jsx:27 | exactly the entries without that `_id` remain |
| SosPage.AckRemoveOrder | frontend/src/pages/SOS.jsx:27 | removal distributes over concatenation, so order is kept; nothing is removed when no entry has the id |
| SosPage.AcknowledgeNeverServed | frontend/src/pages/SOS.jsx:26 | no route answers `POST /sos/ack`, whatever the token |
| SosPage.SosPageState.LoadInitial | frontend/src/pages/SOS.jsx:12-14 | a fetched list replaces the alerts through the intended newest-first order |
| SosPage.SosPageState.OnBroadcast | frontend/src/pages/SOS.jsx:16-22 | an arriving broadcast goes through the intended handler |
| SosPage.SosPageState.Acknowledge | frontend/src/pages/SOS.jsx:24-32 | when served, the entries with that id go; otherwise there is an alert and no change |
| AdminDashboard.UpdateById | frontend/src/pages/AdminDashboard.jsx:67-69 | same length; rows with the id get the new status and others are unchanged |
| AdminDashboard.UpdateMirrorsBackend | frontend/src/pages/AdminDashboard.jsx:67-69 | a shown row becomes exactly what the backend stores after the same update; other rows are untouched |
| AdminDashboard.RemovePlace | frontend/src/pages/AdminDashboard.jsx:56 | exactly the rows without that `_id` remain |
| AdminDashboard.DashboardState.constructor | frontend/src/pages/AdminDashboard.jsx:12-19 | zero counts and empty lists |
| AdminDashboard.DashboardState.Load | frontend/src/pages/AdminDashboard.jsx:29-50 | on success each count is its listing's length and each list shows the first ten; a failure changes nothing |
| AdminDashboard.DashboardState.Mount | frontend/src/pages/AdminDashboard.jsx:21-27 | without a user, a redirect to `/admin/login` and nothing else changes. With one and a successful load, each count is its listing's length and each list shows its first ten; with a failed load nothing changes. No redirect happens with a user |
| AdminDashboard.DashboardState.DeletePlace | frontend/src/pages/AdminDashboard.jsx:52-62 | confirmed and served: the rows with the id go and the count drops by exactly one. Refused: an alert ending in the server `msg` or `undefined`. Not confirmed: nothing happens |
| AdminDashboard.DashboardState.UpdateSosStatus | frontend/src/pages/AdminDashboard.jsx:64-73 | served: only the matching rows' status changes; otherwise there is an alert |
| AdminDashboard.ShownSosAreNewest | frontend/src/pages/AdminDashboard.jsx:46 | the ten alerts shown from GET /sos are the ten newest in the collection: newest first, `min(10, n)` of them, and none left out is newer than one shown |
| VolunteersPage.DropEmpty | frontend/src/pages/Volunteers.jsx:23 | exactly the non-empty strings, in order |
| VolunteersPage.ParseSkills | frontend/src/pages/Volunteers.jsx:23 | every skill is non-empty, trimmed and comma-free; exactly the non-empty trimmed pieces of the text |
| VolunteersPage.ParseSkillsRoundTrip | frontend/src/pages/Volunteers.jsx:23 | non-empty, trimmed, comma-free skills come back unchanged from their comma-joined text |
| VolunteersPage.Payload | frontend/src/pages/Volunteers.jsx:24-29 | name, phone, city and parsed skills are always sent; `lat`/`lng` are sent, parsed, only when both inputs are filled |
| VolunteersPage.PayloadAsStored | frontend/src/pages/Volunteers.jsx:24-29 | an empty name is the 400 path. Otherwise the backend saves the submission exactly when both coordinate inputs are filled, parse to non-zero numbers and form a point the index accepts; without them nothing is stored. A saved submission has the parsed skills and the point `[lng, lat]` |
| VolunteersPage.VolunteersPageState.constructor | frontend/src/pages/Volunteers.jsx:8-14 | no volunteers, all inputs empty |
| VolunteersPage.VolunteersPageState.Load | frontend/src/pages/Volunteers.jsx:17-19 | fetched data replaces the list |
| VolunteersPage.VolunteersPageState.Edit | frontend/src/pages/Volunteers.jsx:9-14 | the inputs change and the list does not |
| VolunteersPage.VolunteersPageState.Submit | frontend/src/pages/Volunteers.jsx:21-44 | the saved volunteer goes in front, the six inputs are emptied and `Volunteer added` is shown. A refusal shows the server `error` or `Failed to add volunteer` and changes nothing |
| AuthContext.SessionFrom | frontend/src/contexts/AuthContext.jsx:12-16 | an admin token wins over a user token; with neither there is no session |
| AuthContext.RegisterCoordinates | frontend/src/contexts/AuthContext.jsx:44 | `[lng, lat]` when both are truthy, else `[]` |
| AuthContext.AfterRejection | frontend/src/services/api.js:19-28 | a 401 rejection removes the admin token, and only it; any other rejection leaves the storage alone |
| AuthContext.ThroughUserAuth | frontend/src/contexts/AuthContext.jsx:71 | with `userAuth` exported the server's outcome comes through; without it every call is a rejection with no response |
| AuthContext.RegisterThroughUserAuth | frontend/src/contexts/AuthContext.jsx:51-57 | with `userAuth` exported the server's outcome comes through; without it every call is a rejection with no response |
| AuthContext.RegisterResult | frontend/src/contexts/AuthContext.jsx:59-65 | success exactly when registered; a refusal reports the server `msg`, else its `error`, else `Registration failed` |
| AuthContext.RegisterNeverSucceeds | frontend/src/contexts/AuthContext.jsx:51-65 | as written, every registration fails with `Registration failed`, whatever the server would answer |
| AuthContext.AuthState.constructor | frontend/src/contexts/AuthContext.jsx:8-9 | no user, loading, no redirects |
| AuthContext.AuthState.Init | frontend/src/contexts/AuthContext.jsx:11-19 | the session is restored from storage and loading ends |
| AuthContext.AuthState.Login | frontend/src/contexts/AuthContext.jsx:21-33 | an issued token is stored under its key and the session set. A refusal reports the server `msg`, else the fallback, and keeps the session; the storage becomes what the interceptor leaves, and a 401 adds one redirect to `/admin/login` |
| AuthContext.AuthState.AdminLogin | frontend/src/contexts/AuthContext.jsx:21-33 | as `Login` with `adminToken`, role `admin` and fallback `Admin login failed`. Wrong credentials are a 401, so they drop the stored admin token and redirect |
| AuthContext.AuthState.UserLogin | frontend/src/contexts/AuthContext.jsx:69-81 | with a working `userAuth` on the same axios instance: as `Login` with `userToken`, role `user` and fallback `User login failed` |
| AuthContext.AuthState.UserLoginAsWritten | frontend/src/contexts/AuthContext.jsx:69-81 | as written, whatever the server would say, the result is `User login failed` and the storage, session and redirects are unchanged |
| AuthContext.UserLoginNeverIssued | frontend/src/contexts/AuthContext.jsx:71 | as written, no user login outcome is a success, and its error is always `User login failed` |
| AuthContext.AuthState.Logout | frontend/src/contexts/AuthContext.jsx:83-87 | both tokens are removed and there is no user |
| AuthContext.AuthState.IsAuthenticated | frontend/src/contexts/AuthContext.jsx:98 | true exactly when there is a user |
| AuthContext.AuthState.Role | frontend/src/contexts/AuthContext.jsx:99 | no user gives `null`; otherwise the user's non-empty role |
| AuthContext.ReloadAfterAdminLogin | frontend/src/contexts/AuthContext.jsx:11-25 | a reload after an admin login restores that admin session |
| AuthContext.ReloadAfterUserLogin | frontend/src/contexts/AuthContext.jsx:11-19 | a reload after a user login restores it only when no admin token is stored; otherwise the admin session comes back |
| AuthContext.ReloadAfterLogout | frontend/src/contexts/AuthContext.jsx:83-87 | after a logout a reload finds no session |
| AuthContext.ReloadAfterUnauthorized | frontend/src/services/api.js:22-25 | the page loaded after a 401 redirect has no admin session: a stored user token comes back as a user session, otherwise there is none |
| AdminUiStore.Transitions | frontend/src/store/useAdminStore.js:5-8 | logout returns exactly to the initial state; both transitions are idempotent; the last login decides the name |
| AdminUiStore.AdminUi.constructor | frontend/src/store/useAdminStore.js:5-6 | logged out, with an empty name |
| AdminUiStore.AdminUi.Login | frontend/src/store/useAdminStore.js:7 | logged in under the given name |
| AdminUiStore.AdminUi.Logout | frontend/src/store/useAdminStore.js:8 | back to the initial state |
| Text.Trim | backend/controllers/placeController.js:13 | `trim()`: a contiguous slice of the text with only white space cut from either end, and no white space left at either end |
| Text.Split | backend/controllers/placeController.js:13 | `split(',')`: one more piece than separators, none of them holding the separator |
| Text.Lower | backend/models/Admin.js:4 | the schema's `lowercase`: same length, each ASCII upper-case letter lowered and every other character kept |
| Query.NewestPage | backend/controllers/sosController.js:27 | `sort({createdAt: -1}).limit(n)`: `min(n, total)` rows, newest first, each from the collection, and nothing left out newer than a row returned |
| Query.Take | backend/controllers/volunteerController.js:40 | `limit(n)`: the first `min(n, total)` rows in order |
| Query.Filter | frontend/src/pages/AdminDashboard.jsx:56 | `filter`: exactly the elements that pass the test, never more than the input |

## Left out

**Environment**

- Database, network, sockets and browser APIs are not modelled. This covers MongoDB, HTTP, socket.io transport, `localStorage` as a browser API, `Notification`, `alert`, `confirm` and `console`. Their results are parameters or return values.
- Leaflet rendering and JSX markup are presentation and are not modelled.
- Concurrency is not modelled:
  - interleaving of requests;
  - races on the `unique` email index;
  - the order in which `Promise.all` settles.

**Stores and proximity**

- VolunteerController.VolunteerStore.GetNearby: returns matches in store order. MongoDB's `$near` sorts them by distance; that ordering is not modelled.
- PlaceController.PlaceStore.GetNearby: returns matches in store order, not by distance, for the same reason as the volunteer query.
- Both nearby queries: a query coordinate that `parseFloat` cannot read gives a `NaN` point, which the database refuses. The model takes the reply to be the generic 500 of the error handler; backend/middleware/errorHandler.js is not part of this model.
- Both nearby queries: an out-of-range query point (latitude beyond 90) is passed to `near` as it is; how the database answers it is not modelled.
- Both nearby queries: `parseInt(radius)` of a non-numeric string (NaN) is not modelled. The radius is an optional integer.
- Both nearby queries: a repeated query key, which Express turns into an array, is not modelled. Query values are strings.
- PlaceController.PlaceStore.GetById: a malformed id (a Mongoose CastError, giving 500) is not modelled, because ids are naturals. The same applies to `DeletePlace` and `UpdateStatus`.
- PlaceController.PlaceStore.CreatePlace: `tags` is modelled as a string. A truthy `tags` of another JSON type, such as an array, on which `split` throws and the reply is 500, is not modelled.
- SosController.SosStore.CreateSos: `lat` and `lng` are modelled as numbers. A JSON string that `parseFloat` cannot read (a `NaN` coordinate, refused at save) is not modelled.
- VolunteerController.VolunteerStore.CreateVolunteer: the `2dsphere` check on a supplied `location` is modelled as the same range check as for a built point. Other malformed GeoJSON shapes the database also refuses are not modelled separately.
- SosSchema.Conforms: `metadata` is modelled as a string-to-string map, so arbitrary JSON objects are not modelled.
- VolunteerSchema.Conforms: a supplied `location` is stored as given, so Mongoose coercion of its fields is not modelled.
- VolunteerController.BuildVolunteer: a truthy non-boolean `verified` is not modelled, because `verified` is an optional boolean. Mongoose would cast such a value.

**Admin accounts**

- SosController.SosStore.UpdateStatus: `status` is a string. A body without `status` sends `{status: undefined}` to `findByIdAndUpdate`, which Mongoose drops (or stores as null, by version), and broadcasts `status: undefined`; that case is not modelled.
- AdminController.AdminStore.Login: takes the email and password as strings. A body missing either, which Mongoose and bcrypt handle on `undefined`, is not modelled.
- `bcrypt.genSalt(10)` is not modelled: `hash` stands for it together with `bcrypt.hash`.
- Signing with `JWT_SECRET` is not modelled: `sign` stands for it.
- Lowercasing and sending the email:
  - AdminSchema.NewAdmin: lower-cases ASCII letters only; Unicode case mapping is not modelled.

**Backend files**

- The auth middleware is not part of this model: `tokenValid` is its verdict.
- backend/sockets/sosSocket.js is modelled only through the event names it broadcasts (`sosAcknowledged`). Its unvalidated relay of `ackSos` payloads is not modelled.
- backend/routes/volunteerRoutes.js, the place, admin and scheme routers, and backend/server.js are not modelled. As written, volunteerRoutes.js mounts `register` and `login`, which volunteerController.js does not define, and mounts no route for `createVolunteer`. Express refuses an `undefined` handler when the module loads, so the backend as written never starts; the model's replies are those of the handlers under a router that does.
- SosRoutes.Matches: compares path segments exactly. Express also matches paths case-insensitively and with a trailing slash; that is not modelled.

**Map page and map widgets**

- MapPage: the geolocation effect, `mapCenter`, `LocationHandler` and the `isSubmitting` flag are not modelled.
- VolunteersPage.VolunteersPageState: the `submitting` flag (frontend/src/pages/Volunteers.jsx:15, 32, 42, 59), which disables the button while a POST is pending, is not modelled.
- MapPage: the unused handler `handleAddPlace` is not modelled; only `handleAddPlaceAlternative` is wired to the form.
- MapPage.IconUrl: a type naming an inherited object property (such as `constructor`) is not modelled. Types are compared as plain strings.
- MapWidget.MapWidgetState.Effect: the short-lived `loading` state while the request is in flight collapses to its final value.

**Sessions and realtime**

- AuthContext.RegisterResult: takes the request's outcome as a parameter. The payload is modelled only by `RegisterCoordinates`.
- AuthContext.ThroughUserAuth: models a loader that tolerates the missing `userAuth` export and binds it to `undefined`. A strict ES module loader refuses to load AuthContext.jsx at all; that is not modelled.
- AuthContext.AuthState.UserLogin: assumes the missing user-auth client would be built on the shared axios instance, so its rejections pass the same interceptor. AuthContext.ReloadAfterUserLogin is about this corrected login; as written no user token is ever stored (see Findings).
- AuthContext.AfterRejection: the interceptor also runs on every other request through the shared instance. A 401 answering the dashboard's own requests clears the admin token and redirects as well; that is not modelled. Nor is the request interceptor that attaches the bearer token; `tokenValid` stands for its effect.
- AuthContext.AuthState.Login: the redirect is recorded in `redirects`. The page load it starts is modelled only by `ReloadAfterUnauthorized`.
- SocketContext: browser notifications and the socket's connect, disconnect and close handling are not modelled.

**Pages not modelled**

- frontend/src/hooks/useFetch.js is not part of this model. frontend/src/utils/apiClient.js is not part of this model either. Their answers are parameters: SOS.jsx and Volunteers.jsx receive a list, or nothing while loading.
- AdminDashboard: tab switching and rendering are not modelled, and the unused `sosAlerts` value is ignored. Scheme documents are represented only by their count.
- The `frontend3` pages and the other components are not part of the core and are not modelled.

## Findings

| source | as written | input that shows it | evidently intended | confidence | as-written member | corrected member |
|---|---|---|---|---|---|---|
| frontend/src/pages/SOS.jsx:13 | the list from GET /sos is reversed, with the comment "show newest first". GET /sos already answers newest first (backend/controllers/sosController.js:27) | any answer holding two alerts with different `createdAt`, e.g. times 2 then 1: the page shows 1 above 2 | keep the fetched order, so the newest alert is on top | medium (useFetch is not part of this model); not executed | SosPage.ReversalShowsOldestFirst | SosPage.InitialAlerts |
| frontend/src/pages/SOS.jsx:20 | the live handler listens on `'sos'`. The backend emits `sosAlert` and `sosUpdate` (backend/controllers/sosController.js:19, 37) and `sosAcknowledged` (backend/sockets/sosSocket.js:16) | a POST /sos while the page is open: the `sosAlert` broadcast never reaches the handler | listen on `sosAlert`, as frontend/src/contexts/SocketContext.jsx:26 does | high; not executed | SosPage.LiveFeedNeverUpdates | SosPage.BroadcastReachesPage |
| frontend/src/contexts/AuthContext.jsx:71 | `userLogin` calls `userAuth.login`. frontend/src/services/api.js exports no `userAuth`, so the name is `undefined` and the call throws a `TypeError` before any request | any user login, even with correct credentials: the result is `{success: false, error: 'User login failed'}` and no `userToken` is stored | call a user-auth client that api.js exports and that posts the credentials | high; a strict ES module loader refuses the module outright; not executed | AuthContext.AuthState.UserLoginAsWritten | AuthContext.AuthState.UserLogin |
| frontend/src/contexts/AuthContext.jsx:51 | `register` calls `userAuth.register`, which is `undefined` for the same reason | any registration: the result is `{success: false, error: 'Registration failed'}` | call an exported user-auth client and report the server's answer | high; a strict ES module loader refuses the module outright; not executed | AuthContext.RegisterNeverSucceeds | AuthContext.RegisterResult |
