/** The place handlers (backend/controllers/placeController.js): create a
    place from a comma-separated tag string, find places near a point
    (optionally sharing a tag), list, fetch one, delete one. */
module PlaceController {
  import opened Common
  import opened Text
  import opened Query
  import opened PlaceSchema

  /** Body of POST /places. `tags` is the comma-separated string;
      `None` is the destructuring default `''`. */
  datatype PlaceRequest = PlaceRequest(
    name: Option<string>,
    description: Option<string>,
    address: Option<string>,
    lat: Option<real>,
    lng: Option<real>,
    tags: Option<string>)

  /** Query string of GET /places/nearby. Query values are strings: `?lng=0`
      is the truthy string `"0"`; an empty value is `Some("")`. */
  datatype NearbyQuery = NearbyQuery(lng: Option<string>, lat: Option<string>, radius: Option<int>, tags: Option<string>)

  const DefaultRadius := 3000
  const NearbyLimit: nat := 200
  const ListLimit: nat := 1000

  /** `tags ? tags.split(',').map(t => t.trim()) : []`: a falsy string gives
      no tags; otherwise one trimmed piece per comma-separated field, empty
      pieces included. */
  function TagsOf(tags: Option<string>): (r: seq<string>)
    ensures !TruthyText(tags) ==> r == []
    ensures TruthyText(tags) ==>
      && |r| == Count(tags.value, ',') + 1
      && forall k :: 0 <= k < |r| ==> r[k] == Trim(Split(tags.value, ',')[k]) && ',' !in r[k] && Trimmed(r[k])
  {
    if TruthyText(tags) then TrimmedPieces(tags.value, ',') else []
  }

  /** Tags that are trimmed, comma-free and not the single empty tag survive
      a trip through the comma string: `TagsOf` inverts `join(',')`. */
  lemma TagsRoundTrip(ts: seq<string>)
    requires |ts| >= 1 && ts != [""]
    requires forall k :: 0 <= k < |ts| ==> ',' !in ts[k] && Trimmed(ts[k])
    ensures TagsOf(Some(Join(ts, ","))) == ts
  {
    var s := Join(ts, ",");
    assert "," == [','];
    JoinEmpty(ts, ",");
    TrimmedPiecesJoin(ts, ',');
  }

  predicate HasFields(req: PlaceRequest) {
    TruthyText(req.name) && TruthyNum(req.lat) && TruthyNum(req.lng)
  }

  function BuildPlace(id: Id, req: PlaceRequest, now: int): Place
    requires HasFields(req)
  {
    NewPlace(id, req.name.value, req.description, req.address,
             Point(req.lng.value, req.lat.value), TagsOf(req.tags), now)
  }

  /** A built place stores `[lng, lat]`, conforms to the schema and takes
      the schema defaults. */
  lemma BuildPlaceShape(id: Id, req: PlaceRequest, now: int)
    requires HasFields(req)
    ensures var p := BuildPlace(id, req, now);
      && p.location == GeoJson("Point", [req.lng.value, req.lat.value])
      && LatLngOf(p.location) == Some((req.lat.value, req.lng.value))
      && Conforms(p) && !p.verified && p.addedBy == None && p.photos == []
      && p.name == req.name.value
  {
  }

  /** `!lng || !lat` is false: both query values present and non-empty. */
  predicate HasPoint(q: NearbyQuery) {
    TruthyText(q.lng) && TruthyText(q.lat)
  }

  /** `[parseFloat(lng), parseFloat(lat)]` when both parse; `parse` returns
      `None` where `parseFloat` gives `NaN`. */
  function PointOf(q: NearbyQuery, parse: string -> Option<real>): (r: Option<seq<real>>)
    requires HasPoint(q)
    ensures r.Some? <==> parse(q.lng.value).Some? && parse(q.lat.value).Some?
    ensures r.Some? ==> r.value == [parse(q.lng.value).value, parse(q.lat.value).value]
  {
    var x := parse(q.lng.value);
    var y := parse(q.lat.value);
    if x.Some? && y.Some? then Some([x.value, y.value]) else None
  }

  function RadiusOf(q: NearbyQuery): int {
    if q.radius.Some? then q.radius.value else DefaultRadius
  }

  /** `{tags: {$in: wanted}}` on an array field: some tag of the place is
      one of the wanted ones. */
  predicate SharesTag(p: Place, wanted: seq<string>) {
    exists k :: 0 <= k < |p.tags| && p.tags[k] in wanted
  }

  /** The query filter of GET /nearby around `point`: within the radius
      and, when `tags` was given, sharing one of its trimmed pieces. */
  predicate NearbyMatch(p: Place, point: seq<real>, q: NearbyQuery, near: (seq<real>, seq<real>, int) -> bool)
  {
    near(p.location.coordinates, point, RadiusOf(q))
    && (TruthyText(q.tags) ==> SharesTag(p, TagsOf(q.tags)))
  }

  class PlaceStore {
    var records: map<Id, Place>
    var nextId: Id

    ghost predicate Valid()
      reads this
    {
      forall k :: k in records ==>
        k < nextId && records[k].id == k && Conforms(records[k]) && IndexAccepts(records[k].location)
    }

    constructor ()
      ensures Valid() && records == map[] && nextId == 0
    {
      records := map[];
      nextId := 0;
    }

    function Listing(): seq<Place>
      reads this
    {
      Rows(records, nextId)
    }

    /** POST /places. A falsy name, lat or lng is a 400 and stores nothing;
        a point the `2dsphere` index refuses makes the save throw, the
        generic 500, and stores nothing; otherwise exactly one place is saved
        and returned with 201. */
    method CreatePlace(req: PlaceRequest, now: int) returns (reply: Reply<Place>)
      requires Valid()
      modifies this
      ensures Valid()
      ensures !HasFields(req) ==>
        reply == Reply(400, Msg("name, lat, lng required")) && records == old(records) && nextId == old(nextId)
      ensures HasFields(req) && !IndexAccepts(Point(req.lng.value, req.lat.value)) ==>
        reply == Reply(500, ServerError) && records == old(records) && nextId == old(nextId)
      ensures HasFields(req) && IndexAccepts(Point(req.lng.value, req.lat.value)) ==>
        var p := BuildPlace(old(nextId), req, now);
        && records == old(records)[old(nextId) := p] && nextId == old(nextId) + 1
        && Listing() == old(Listing()) + [p]
        && reply == Reply(201, Data(p))
    {
      if !HasFields(req) {
        return Reply(400, Msg("name, lat, lng required"));
      }
      var p := BuildPlace(nextId, req, now);
      if !IndexAccepts(p.location) {
        return Reply(500, ServerError);
      }
      RowsInsert(records, nextId, p);
      records := records[nextId := p];
      nextId := nextId + 1;
      reply := Reply(201, Data(p));
    }

    /** GET /places/nearby. A missing or empty lng or lat is a 400 (the
        string `"0"` passes). A value `parseFloat` cannot read is the generic
        500. Otherwise at most 200 stored places, each matching the filter
        around `[lng, lat]`; fewer than 200 means none that matches was left
        out. */
    function GetNearby(q: NearbyQuery, parse: string -> Option<real>, near: (seq<real>, seq<real>, int) -> bool): (reply: Reply<seq<Place>>)
      reads this
      ensures !HasPoint(q) ==> reply == Reply(400, Msg("lng and lat required"))
      ensures HasPoint(q) && PointOf(q, parse).None? ==> reply == Reply(500, ServerError)
      ensures HasPoint(q) && PointOf(q, parse).Some? ==>
        var point := PointOf(q, parse).value;
        && reply.status == 200 && reply.body.Data?
        && |reply.body.value| <= 200
        && (forall p :: p in reply.body.value ==> p in records.Values && NearbyMatch(p, point, q, near))
        && (|reply.body.value| < 200 ==>
              forall p :: p in Listing() && NearbyMatch(p, point, q, near) ==> p in reply.body.value)
    {
      if !HasPoint(q) then Reply(400, Msg("lng and lat required"))
      else if PointOf(q, parse).None? then Reply(500, ServerError)
      else
        var point := PointOf(q, parse).value;
        var hits := Filter(Listing(), (p: Place) => NearbyMatch(p, point, q, near));
        var r := Take(hits, NearbyLimit);
        assert forall p :: p in r ==> p in hits;
        Reply(200, Data(r))
    }

    /** GET /places: at most 1000 places, newest first, none left out newer
        than one returned. */
    function GetAll(): (r: seq<Place>)
      reads this
      ensures |r| == Min(ListLimit, |Listing()|) && |r| <= 1000
      ensures SortedDesc(r, CreatedAt)
      ensures forall x :: x in r ==> x in records.Values
      ensures forall x, y :: x in multiset(Listing()) - multiset(r) && y in r ==> x.createdAt <= y.createdAt
    {
      NewestPage(Listing(), ListLimit, CreatedAt)
    }

    /** GET /places/:id: the stored place, or 404. */
    function GetById(id: Id): (reply: Reply<Place>)
      reads this
      ensures id in records ==> reply == Reply(200, Data(records[id]))
      ensures id !in records ==> reply == Reply(404, Msg("Not found"))
    {
      if id in records then Reply(200, Data(records[id])) else Reply(404, Msg("Not found"))
    }

    /** DELETE /places/:id: the id is gone afterwards, every other place is
        untouched, and the reply is `{msg: 'Deleted'}` whether or not the id
        was stored. */
    method DeletePlace(id: Id) returns (reply: Reply<Place>)
      requires Valid()
      modifies this
      ensures Valid()
      ensures records == old(records) - {id} && nextId == old(nextId)
      ensures reply == Reply(200, Msg("Deleted"))
    {
      records := records - {id};
      reply := Reply(200, Msg("Deleted"));
    }
  }

  /** A query on the equator, `?lng=10&lat=0`, is answered: the guard tests
      the query strings, not their numeric values. */
  lemma EquatorQueryAnswered(store: PlaceStore, lng: string, parse: string -> Option<real>, near: (seq<real>, seq<real>, int) -> bool)
    requires lng != "" && parse(lng).Some? && parse("0") == Some(0.0)
    ensures var q := NearbyQuery(Some(lng), Some("0"), None, None);
      store.GetNearby(q, parse, near).status == 200
  {
  }
}
