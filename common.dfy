/** Shared vocabulary of the model: optional values, HTTP replies, GeoJSON
    points and the JavaScript truthiness rules the handlers rely on. */
module Common {

  /** Record identity (a MongoDB ObjectId); assigned by the store. */
  type Id = nat

  datatype Option<+T> = None | Some(value: T)

  /** The JSON body a handler sends: a record, `{msg}`, `{error}`, `null`,
      or the generic 500 produced by the process-wide error handler. */
  datatype Body<+T> = Data(value: T) | Msg(msg: string) | ErrorField(error: string) | JsonNull | ServerError

  datatype Reply<+T> = Reply(status: nat, body: Body<T>)

  /** A GeoJSON geometry as stored: `{type, coordinates}`. */
  datatype GeoJson = GeoJson(kind: string, coordinates: seq<real>)

  /** The stored form of a point: longitude first, then latitude. */
  function Point(lng: real, lat: real): GeoJson {
    GeoJson("Point", [lng, lat])
  }

  /** Reads a stored point back in display order `(lat, lng)`. */
  function LatLngOf(g: GeoJson): Option<(real, real)> {
    if |g.coordinates| >= 2 then Some((g.coordinates[1], g.coordinates[0])) else None
  }

  /** What a `2dsphere` index accepts at insert: a `Point` with exactly a
      longitude in [-180, 180] and a latitude in [-90, 90]. A document whose
      indexed point fails this is refused by the database and the save
      throws. */
  predicate IndexAccepts(g: GeoJson) {
    && g.kind == "Point" && |g.coordinates| == 2
    && -180.0 <= g.coordinates[0] <= 180.0
    && -90.0 <= g.coordinates[1] <= 90.0
  }

  lemma PointRoundTrip(lng: real, lat: real)
    ensures LatLngOf(Point(lng, lat)) == Some((lat, lng))
    ensures Point(lng, lat).coordinates[0] == lng && Point(lng, lat).coordinates[1] == lat
  {
  }

  /** JavaScript truthiness of a number that may be missing: `undefined` and
      `0` are falsy. */
  predicate TruthyNum(x: Option<real>) {
    x.Some? && x.value != 0.0
  }

  /** JavaScript truthiness of a string that may be missing: `undefined`
      and `''` are falsy. */
  predicate TruthyText(s: Option<string>) {
    s.Some? && s.value != ""
  }

  /** `s || d` for a string that may be missing. */
  function TextOr(s: Option<string>, d: string): (r: string)
    ensures TruthyText(s) ==> r == s.value
    ensures !TruthyText(s) ==> r == d
  {
    if TruthyText(s) then s.value else d
  }
}
