/** The volunteer document (backend/models/Volunteer.js). */
module VolunteerSchema {
  import opened Common

  /** The nested path `location.type` has the default `'Point'` and
      `location.coordinates` has none, so every built document has a
      `location`: without coordinates it is `{type: 'Point'}` alone. */
  datatype Volunteer = Volunteer(
    id: Id,
    name: string,
    phone: Option<string>,
    email: Option<string>,
    city: Option<string>,
    skills: seq<string>,
    verified: bool,
    location: GeoJson,
    createdAt: int)

  /** `{type: 'Point'}` with `coordinates` left `undefined`. */
  const DefaultLocation := GeoJson("Point", [])

  /** What `save()` validates: `name` is required (a missing or empty string
      fails) and `location.type` is in the enum `['Point']`. */
  predicate Conforms(v: Volunteer) {
    v.name != "" && v.location.kind == "Point"
  }

  function CreatedAt(v: Volunteer): int {
    v.createdAt
  }
}
