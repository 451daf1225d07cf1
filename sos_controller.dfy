/** The SOS handlers (backend/controllers/sosController.js): create an
    alert, list alerts, update an alert's status. The SOS collection and the
    socket.io broadcasts are the fields of `SosStore`. */
module SosController {
  import opened Common
  import opened Query
  import opened SosSchema

  /** What `io.emit` broadcasts. */
  datatype Event =
    | SosAlert(id: Id, lat: real, lng: real, message: string, createdAt: int)
    | SosUpdate(id: Id, status: string)

  /** Body of POST /sos; a field the client left out is `None`. */
  datatype SosRequest = SosRequest(
    lat: Option<real>,
    lng: Option<real>,
    message: Option<string>,
    userId: Option<string>,
    metadata: Option<map<string, string>>)

  /** The reply body `{ok: true, sos}`. */
  datatype Created = Created(ok: bool, sos: Sos)

  const ListLimit: nat := 200

  /** `!lat || !lng` is false: both present and non-zero. */
  predicate HasCoordinates(req: SosRequest) {
    TruthyNum(req.lat) && TruthyNum(req.lng)
  }

  /** The document createSos builds before saving it. */
  function BuildSos(id: Id, req: SosRequest, now: int): Sos
    requires HasCoordinates(req)
  {
    NewDocument(
      id,
      if TruthyText(req.userId) then req.userId else None,
      TextOr(req.message, ""),
      Point(req.lng.value, req.lat.value),
      if req.metadata.Some? then req.metadata.value else map[],
      now)
  }

  /** The stored point is `[lng, lat]`, the reverse of the request order,
      and reads back as the request's `(lat, lng)`; the record conforms to the
      schema and takes the documented defaults. */
  lemma BuildSosShape(id: Id, req: SosRequest, now: int)
    requires HasCoordinates(req)
    ensures var s := BuildSos(id, req, now);
      && s.location.kind == "Point"
      && s.location.coordinates == [req.lng.value, req.lat.value]
      && LatLngOf(s.location) == Some((req.lat.value, req.lng.value))
      && Conforms(s) && s.status == "open" && s.createdAt == now
      && (s.userId == None <==> !TruthyText(req.userId))
      && (s.message == "" <==> !TruthyText(req.message))
      && (req.metadata == None ==> s.metadata == map[])
      && (TruthyText(req.userId) ==> s.userId == req.userId)
      && (TruthyText(req.message) ==> s.message == req.message.value)
      && (req.metadata.Some? ==> s.metadata == req.metadata.value)
  {
  }

  /** The alert broadcast for a saved document carries the request's
      coordinates and the stored (defaulted) message: for the document
      `BuildSos` made, its `(lat, lng)` is what the stored `[lng, lat]`
      reads back as. */
  function AlertFor(s: Sos, req: SosRequest): (e: Event)
    requires HasCoordinates(req)
    ensures e.SosAlert? && e.id == s.id && e.message == s.message && e.createdAt == s.createdAt
    ensures s.location == Point(req.lng.value, req.lat.value) ==> LatLngOf(s.location) == Some((e.lat, e.lng))
    ensures e.lat != 0.0 && e.lng != 0.0
  {
    SosAlert(s.id, req.lat.value, req.lng.value, s.message, s.createdAt)
  }

  class SosStore {
    /** The SOS collection, by id. */
    var records: map<Id, Sos>
    /** The id the next saved document gets. */
    var nextId: Id
    /** Every broadcast so far, oldest first. */
    var events: seq<Event>
    /** `req.app.get('io')` is set. */
    const ioAttached: bool

    /** Ids below `nextId`; every stored point is one the `2dsphere` index
        accepts: `{type: 'Point'}` with an in-range longitude and latitude. */
    ghost predicate Valid()
      reads this
    {
      forall k :: k in records ==>
        k < nextId && records[k].id == k && IndexAccepts(records[k].location)
    }

    /** Every stored status is in the schema's enum. */
    predicate StatusesConform()
      reads this
    {
      forall k :: k in records ==> IsStatus(records[k].status)
    }

    constructor (ioAttached: bool)
      ensures Valid() && StatusesConform()
      ensures records == map[] && nextId == 0 && events == [] && this.ioAttached == ioAttached
    {
      records := map[];
      nextId := 0;
      events := [];
      this.ioAttached := ioAttached;
    }

    /** The collection in insertion order. */
    function Listing(): seq<Sos>
      reads this
    {
      Rows(records, nextId)
    }

    /** POST /sos. Falsy `lat` or `lng` (missing or 0) is a 400 and changes
        nothing. A point the `2dsphere` index refuses (a latitude beyond 90,
        a longitude beyond 180) makes the save throw: the generic 500, nothing
        stored and no `sosAlert`. Otherwise exactly one document is saved,
        exactly one `sosAlert` is broadcast (when socket.io is attached) and
        the reply is 201 `{ok: true, sos}`. */
    method CreateSos(req: SosRequest, now: int) returns (reply: Reply<Created>)
      requires Valid()
      modifies this
      ensures Valid()
      ensures !HasCoordinates(req) ==>
        && reply == Reply(400, Msg("lat & lng required"))
        && records == old(records) && nextId == old(nextId) && events == old(events)
      ensures HasCoordinates(req) && !IndexAccepts(Point(req.lng.value, req.lat.value)) ==>
        && reply == Reply(500, ServerError)
        && records == old(records) && nextId == old(nextId) && events == old(events)
      ensures HasCoordinates(req) && IndexAccepts(Point(req.lng.value, req.lat.value)) ==>
        var s := BuildSos(old(nextId), req, now);
        && old(nextId) !in old(records)
        && records == old(records)[old(nextId) := s]
        && nextId == old(nextId) + 1
        && Listing() == old(Listing()) + [s]
        && events == old(events) + (if ioAttached then [AlertFor(s, req)] else [])
        && reply == Reply(201, Data(Created(true, s)))
      ensures old(StatusesConform()) ==> StatusesConform()
    {
      if !HasCoordinates(req) {
        return Reply(400, Msg("lat & lng required"));
      }
      var s := BuildSos(nextId, req, now);
      if !IndexAccepts(s.location) {
        return Reply(500, ServerError);
      }
      RowsInsert(records, nextId, s);
      records := records[nextId := s];
      nextId := nextId + 1;
      if ioAttached {
        events := events + [AlertFor(s, req)];
      }
      reply := Reply(201, Data(Created(true, s)));
    }

    /** GET /sos: at most 200 documents, newest first, all from the store, and
        none left out is newer than one returned. */
    function GetAllSos(): (r: seq<Sos>)
      reads this
      ensures |r| == Min(ListLimit, |Listing()|) && |r| <= 200
      ensures SortedDesc(r, CreatedAt)
      ensures forall x :: x in r ==> x in records.Values
      ensures forall x, y :: x in multiset(Listing()) - multiset(r) && y in r ==> x.createdAt <= y.createdAt
    {
      NewestPage(Listing(), ListLimit, CreatedAt)
    }

    /** PATCH /:id/status. On a stored id only `status` changes, to whatever
        was sent (no transition guard, no enum check: the update runs no
        validators), and `sosUpdate {id, status}` is broadcast. On an unknown
        id nothing is stored and nothing is broadcast; reading `sos._id` of
        the `null` result throws, so the reply is the generic 500 when
        socket.io is attached and `null` otherwise. */
    method UpdateStatus(id: Id, status: string) returns (reply: Reply<Sos>)
      requires Valid()
      modifies this
      ensures Valid() && nextId == old(nextId)
      ensures id in old(records) ==>
        && records == old(records)[id := WithStatus(old(records)[id], status)]
        && events == old(events) + (if ioAttached then [SosUpdate(id, status)] else [])
        && reply == Reply(200, Data(WithStatus(old(records)[id], status)))
      ensures id !in old(records) ==>
        && records == old(records) && events == old(events)
        && reply == (if ioAttached then Reply(500, ServerError) else Reply(200, JsonNull))
      ensures id in old(records) && old(StatusesConform()) ==> (StatusesConform() <==> IsStatus(status))
    {
      if id !in records {
        if ioAttached {
          return Reply(500, ServerError);
        }
        return Reply(200, JsonNull);
      }
      var updated := WithStatus(records[id], status);
      records := records[id := updated];
      if ioAttached {
        events := events + [SosUpdate(id, status)];
      }
      assert records[id].status == status;
      reply := Reply(200, Data(updated));
    }
  }

  /** An alert created strictly later than every stored one heads the
      newest-first list. */
  lemma NewestAlertLeads(listing: seq<Sos>, s: Sos)
    requires forall y :: y in listing ==> y.createdAt < s.createdAt
    ensures NewestPage(listing + [s], ListLimit, CreatedAt)[0] == s
  {
    NewestLeads(listing + [s], ListLimit, CreatedAt, s);
  }
}
