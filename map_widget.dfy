/** The embeddable map component (frontend/src/components/map/AccessibilityMap.jsx):
    reading coordinates from a place in either shape, keeping only places
    with numeric coordinates, accepting either payload shape, and the
    mount effect. */
module MapWidget {
  import opened Common
  import opened ClientJson
  import PlaceSchema

  /** `place.location?.coordinates || place.coordinates || []`. */
  function CoordsOf(p: RawDoc): (c: seq<Scalar>)
    ensures p.location.Some? && p.location.value.coordinates.Some? ==> c == p.location.value.coordinates.value
    ensures !(p.location.Some? && p.location.value.coordinates.Some?) && p.coordinates.Some? ==> c == p.coordinates.value
    ensures !(p.location.Some? && p.location.value.coordinates.Some?) && p.coordinates.None? ==> c == []
  {
    if p.location.Some? && p.location.value.coordinates.Some? then p.location.value.coordinates.value
    else if p.coordinates.Some? then p.coordinates.value
    else []
  }

  datatype Marker = Marker(key: Option<string>, lat: real, lng: real, name: Option<string>, detail: Option<string>)

  /** A marker only when `coords[1]` and `coords[0]` are numbers; its
      position is `[coords[1], coords[0]]`; the popup shows `address`, else
      `description`. */
  function MarkerOf(p: RawDoc): (m: Option<Marker>)
    ensures m.Some? <==> At(CoordsOf(p), 1).Num? && At(CoordsOf(p), 0).Num?
    ensures m.Some? ==>
      && |CoordsOf(p)| >= 2
      && m.value.lat == CoordsOf(p)[1].x && m.value.lng == CoordsOf(p)[0].x
  {
    var c := CoordsOf(p);
    match (At(c, 1), At(c, 0))
    case (Num(lat), Num(lng)) =>
      Some(Marker(p.dbId, lat, lng, p.name, if TruthyText(p.address) then p.address else p.description))
    case _ => None
  }

  /** The markers of a list, in list order: exactly the places `MarkerOf`
      accepts. */
  function Markers(places: seq<RawDoc>): (r: seq<Marker>)
    ensures |r| <= |places|
    ensures forall m :: m in r <==> exists k :: 0 <= k < |places| && MarkerOf(places[k]) == Some(m)
  {
    if places == [] then []
    else
      var rest := Markers(places[1..]);
      assert forall k :: 1 <= k < |places| ==> places[k] == places[1..][k - 1];
      assert forall k :: 0 <= k < |places[1..]| ==> places[1..][k] == places[k + 1];
      match MarkerOf(places[0])
      case Some(m) => [m] + rest
      case None => rest
  }

  /** A stored place, as the backend sends it, gets its marker at
      `(lat, lng)`, the reverse of the stored order. */
  lemma BackendPlaceMarker(p: PlaceSchema.Place, key: string)
    requires |p.location.coordinates| == 2
    ensures var m := MarkerOf(PlaceJson(p, key));
      m.Some? && m.value.lat == p.location.coordinates[1] && m.value.lng == p.location.coordinates[0]
  {
  }

  /** `res.data`: an array, an object that may hold `places`, or `null`. */
  datatype Payload = PlaceArray(items: seq<RawDoc>) | PlaceObject(places: Option<seq<RawDoc>>) | NullPayload

  /** `Array.isArray(payload) ? payload : payload.places || []`; `None` is
      the TypeError reading `places` of `null`. */
  function PayloadPlaces(payload: Payload): (r: Option<seq<RawDoc>>)
    ensures payload.PlaceArray? ==> r == Some(payload.items)
    ensures payload.PlaceObject? ==> r == Some(if payload.places.Some? then payload.places.value else [])
    ensures payload.NullPayload? <==> r.None?
  {
    match payload
    case PlaceArray(items) => Some(items)
    case PlaceObject(places) => Some(if places.Some? then places.value else [])
    case NullPayload => None
  }

  /** The outcome of `GET /places`: a payload, or a rejected request. */
  datatype Fetch = Fetched(payload: Payload) | FetchError

  const FallbackCenter: (real, real) := (20.5937, 78.9629)

  class MapWidgetState {
    var places: seq<RawDoc>
    var loading: bool
    var userLocation: Option<(real, real)>

    /** `useState(propPlaces || [])`, `useState(propLoading ?? false)`. */
    constructor (propPlaces: Option<seq<RawDoc>>, propLoading: Option<bool>)
      ensures places == (if propPlaces.Some? then propPlaces.value else [])
      ensures loading == (propLoading == Some(true))
      ensures userLocation == None
    {
      places := if propPlaces.Some? then propPlaces.value else [];
      loading := propLoading == Some(true);
      userLocation := None;
    }

    /** The mount effect, with the request's and the geolocation's outcomes
        as parameters (`geo == None`: refused or unsupported). Non-empty
        prop places are used without fetching; otherwise the payload's places
        replace the list, and a failed request or a `null` payload leaves it.
        The user location falls back to the centre of India. */
    method Effect(propPlaces: Option<seq<RawDoc>>, propLoading: Option<bool>, fetch: Fetch, geo: Option<(real, real)>)
      modifies this
      ensures propPlaces.Some? && |propPlaces.value| > 0 ==>
        places == propPlaces.value && loading == (propLoading == Some(true))
      ensures !(propPlaces.Some? && |propPlaces.value| > 0) ==>
        && !loading
        && places == (if fetch.Fetched? && PayloadPlaces(fetch.payload).Some?
                      then PayloadPlaces(fetch.payload).value else old(places))
      ensures userLocation == Some(if geo.Some? then geo.value else FallbackCenter)
    {
      if propPlaces.Some? && |propPlaces.value| > 0 {
        places := propPlaces.value;
        loading := propLoading == Some(true);
      } else {
        loading := true;
        if fetch.Fetched? {
          var p := PayloadPlaces(fetch.payload);
          if p.Some? {
            places := p.value;
          }
        }
        loading := false;
      }
      if geo.Some? {
        userLocation := geo;
      } else {
        userLocation := Some(FallbackCenter);
      }
    }
  }
}
