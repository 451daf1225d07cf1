/** The volunteer handlers (backend/controllers/volunteerController.js):
    create a volunteer, list volunteers, find volunteers near a point. */
module VolunteerController {
  import opened Common
  import opened Query
  import opened VolunteerSchema

  /** `skills` as it arrives: an array, or anything else (a comma string,
      a number, missing). */
  datatype SkillsInput = SkillList(items: seq<string>) | NotAList

  datatype VolunteerRequest = VolunteerRequest(
    name: Option<string>,
    phone: Option<string>,
    email: Option<string>,
    city: Option<string>,
    skills: SkillsInput,
    verified: Option<bool>,
    location: Option<GeoJson>,
    lat: Option<real>,
    lng: Option<real>)

  /** Query string of GET /nearby. Query values are strings: `?lng=0` is
      the truthy string `"0"`; an empty value is `Some("")`. */
  datatype NearbyQuery = NearbyQuery(lng: Option<string>, lat: Option<string>, radius: Option<int>)

  const DefaultRadius := 5000
  const ListLimit: nat := 500
  const NearbyLimit: nat := 100

  /** A supplied `location` is used as it is; otherwise truthy `lat` and
      `lng` give the point `[lng, lat]`; otherwise there is none. */
  function LocationFor(req: VolunteerRequest): (loc: Option<GeoJson>)
    ensures req.location.Some? ==> loc == req.location
    ensures req.location.None? && TruthyNum(req.lat) && TruthyNum(req.lng) ==>
      loc == Some(Point(req.lng.value, req.lat.value))
      && LatLngOf(loc.value) == Some((req.lat.value, req.lng.value))
    ensures req.location.None? && !(TruthyNum(req.lat) && TruthyNum(req.lng)) ==> loc == None
  {
    if req.location.Some? then req.location
    else if TruthyNum(req.lat) && TruthyNum(req.lng) then Some(Point(req.lng.value, req.lat.value))
    else None
  }

  /** `Array.isArray(skills) ? skills : []`. */
  function SkillsFor(skills: SkillsInput): (r: seq<string>)
    ensures skills.SkillList? ==> r == skills.items
    ensures skills.NotAList? ==> r == []
  {
    match skills
    case SkillList(items) => items
    case NotAList => []
  }

  /** The document's `location`: the point `LocationFor` gives, or the
      schema's `{type: 'Point'}` default with no coordinates. */
  function StoredLocation(req: VolunteerRequest): (g: GeoJson)
    ensures LocationFor(req).Some? ==> g == LocationFor(req).value
    ensures LocationFor(req).None? ==> g == DefaultLocation && !IndexAccepts(g)
  {
    match LocationFor(req)
    case Some(loc) => loc
    case None => DefaultLocation
  }

  function BuildVolunteer(id: Id, req: VolunteerRequest, now: int): Volunteer
    requires TruthyText(req.name)
  {
    Volunteer(id, req.name.value, req.phone, req.email, req.city, SkillsFor(req.skills),
              req.verified == Some(true), StoredLocation(req), now)
  }

  /** A built volunteer keeps the name, is verified only when the request
      says `true`, and conforms to the schema unless a supplied location has
      a type other than `Point` (the default location is a `Point`). */
  lemma BuildVolunteerShape(id: Id, req: VolunteerRequest, now: int)
    requires TruthyText(req.name)
    ensures var v := BuildVolunteer(id, req, now);
      && v.name == req.name.value
      && (v.verified <==> req.verified == Some(true))
      && (Conforms(v) <==> (req.location.Some? ==> req.location.value.kind == "Point"))
  {
  }

  /** A volunteer document the database saves: it passes the schema's
      validators and its location is one the `2dsphere` index accepts. */
  predicate Saves(v: Volunteer) {
    Conforms(v) && IndexAccepts(v.location)
  }

  /** A request with no usable coordinates (no `location`, and `lat` or
      `lng` missing or `0`) is never saved: the defaulted `{type: 'Point'}`
      has nothing the index can read. A saved volunteer always has the
      point `LocationFor` gives. */
  lemma SavedOnlyWithPoint(id: Id, req: VolunteerRequest, now: int)
    requires TruthyText(req.name)
    ensures LocationFor(req).None? ==> !Saves(BuildVolunteer(id, req, now))
    ensures Saves(BuildVolunteer(id, req, now)) ==>
      LocationFor(req).Some? && BuildVolunteer(id, req, now).location == LocationFor(req).value
      && IndexAccepts(LocationFor(req).value)
  {
  }

  /** `!lng || !lat` is false: both query values present and non-empty. */
  predicate HasPoint(q: NearbyQuery) {
    TruthyText(q.lng) && TruthyText(q.lat)
  }

  /** `[parseFloat(lng), parseFloat(lat)]` when both parse; `parse` returns
      `None` where `parseFloat` gives `NaN`. */
  function PointOf(q: NearbyQuery, parse: string -> Option<real>): (r: Option<seq<real>>)
    requires HasPoint(q)
    ensures r.Some? <==> parse(q.lng.value).Some? && parse(q.lat.value).Some?
    ensures r.Some? ==> r.value == [parse(q.lng.value).value, parse(q.lat.value).value]
  {
    var x := parse(q.lng.value);
    var y := parse(q.lat.value);
    if x.Some? && y.Some? then Some([x.value, y.value]) else None
  }

  /** `parseInt(radius)` with the destructuring default 5000. */
  function RadiusOf(q: NearbyQuery): int {
    if q.radius.Some? then q.radius.value else DefaultRadius
  }

  class VolunteerStore {
    var records: map<Id, Volunteer>
    var nextId: Id

    ghost predicate Valid()
      reads this
    {
      forall k :: k in records ==> k < nextId && records[k].id == k && Saves(records[k])
    }

    constructor ()
      ensures Valid() && records == map[] && nextId == 0
    {
      records := map[];
      nextId := 0;
    }

    function Listing(): seq<Volunteer>
      reads this
    {
      Rows(records, nextId)
    }

    /** POST /volunteers. A falsy name is a 400 `{error}`; a document that
        fails the schema's validators, or whose location the `2dsphere` index
        refuses, is the generic 500; either way nothing is stored. Otherwise
        exactly one document is saved and returned with 201. */
    method CreateVolunteer(req: VolunteerRequest, now: int) returns (reply: Reply<Volunteer>)
      requires Valid()
      modifies this
      ensures Valid()
      ensures !TruthyText(req.name) ==>
        reply == Reply(400, ErrorField("Name is required")) && records == old(records) && nextId == old(nextId)
      ensures TruthyText(req.name) && !Saves(BuildVolunteer(old(nextId), req, now)) ==>
        reply == Reply(500, ServerError) && records == old(records) && nextId == old(nextId)
      ensures TruthyText(req.name) && Saves(BuildVolunteer(old(nextId), req, now)) ==>
        var v := BuildVolunteer(old(nextId), req, now);
        && records == old(records)[old(nextId) := v] && nextId == old(nextId) + 1
        && Listing() == old(Listing()) + [v]
        && reply == Reply(201, Data(v))
    {
      if !TruthyText(req.name) {
        return Reply(400, ErrorField("Name is required"));
      }
      var v := BuildVolunteer(nextId, req, now);
      if !Saves(v) {
        return Reply(500, ServerError);
      }
      RowsInsert(records, nextId, v);
      records := records[nextId := v];
      nextId := nextId + 1;
      reply := Reply(201, Data(v));
    }

    /** GET /volunteers: the first 500 documents in store order. */
    function GetAll(): (r: seq<Volunteer>)
      reads this
      ensures |r| == Min(ListLimit, |Listing()|) && |r| <= 500
      ensures r == Listing()[..|r|]
    {
      Take(Listing(), ListLimit)
    }

    /** GET /nearby. A missing or empty `lng` or `lat` is a 400 (the
        string `"0"` is truthy and passes). A value `parseFloat` cannot read
        makes the query's point invalid and the database refuses it: the
        generic 500. Otherwise at most 100 volunteers, each stored, each with a
        point the proximity test `near(point, [lng, lat], radius)` accepts,
        the radius defaulting to 5000; and when fewer than 100 come back,
        every stored volunteer the test accepts is among them. */
    function GetNearby(q: NearbyQuery, parse: string -> Option<real>, near: (seq<real>, seq<real>, int) -> bool): (reply: Reply<seq<Volunteer>>)
      reads this
      ensures !HasPoint(q) ==> reply == Reply(400, Msg("lng & lat required"))
      ensures HasPoint(q) && PointOf(q, parse).None? ==> reply == Reply(500, ServerError)
      ensures HasPoint(q) && PointOf(q, parse).Some? ==>
        var point := PointOf(q, parse).value;
        && reply.status == 200 && reply.body.Data?
        && |reply.body.value| <= 100
        && (forall v :: v in reply.body.value ==>
              v in records.Values && near(v.location.coordinates, point, RadiusOf(q)))
        && (|reply.body.value| < 100 ==>
              forall v :: v in Listing() && near(v.location.coordinates, point, RadiusOf(q))
                ==> v in reply.body.value)
    {
      if !HasPoint(q) then Reply(400, Msg("lng & lat required"))
      else if PointOf(q, parse).None? then Reply(500, ServerError)
      else
        var point := PointOf(q, parse).value;
        var radius := RadiusOf(q);
        var hits := Filter(Listing(), (v: Volunteer) => near(v.location.coordinates, point, radius));
        var r := Take(hits, NearbyLimit);
        assert forall v :: v in r ==> v in hits;
        Reply(200, Data(r))
    }
  }

  /** A query on the prime meridian, `?lng=0&lat=51.48`, is answered: the
      guard tests the query strings, not their numeric values. */
  lemma MeridianQueryAnswered(store: VolunteerStore, lat: string, parse: string -> Option<real>, near: (seq<real>, seq<real>, int) -> bool)
    requires lat != "" && parse("0") == Some(0.0) && parse(lat).Some?
    ensures var q := NearbyQuery(Some("0"), Some(lat), None);
      store.GetNearby(q, parse, near).status == 200
  {
  }
}
