/** The place document (backend/models/Place.js). */
module PlaceSchema {
  import opened Common

  datatype Place = Place(
    id: Id,
    name: string,
    description: Option<string>,
    address: Option<string>,
    location: GeoJson,
    tags: seq<string>,
    photos: seq<string>,
    verified: bool,
    /** The admin who added the place; the schema default is `null`. */
    addedBy: Option<Id>,
    createdAt: int)

  /** What `save()` validates: `name` required, `location.type` in the enum
      `['Point']`, `coordinates` a required (non-empty) array. */
  predicate Conforms(p: Place) {
    p.name != "" && p.location.kind == "Point" && |p.location.coordinates| > 0
  }

  function CreatedAt(p: Place): int {
    p.createdAt
  }

  /** `new Place({name, description, address, location, tags})`: the schema
      supplies `photos`, `verified`, `addedBy` and `createdAt`. */
  function NewPlace(id: Id, name: string, description: Option<string>, address: Option<string>,
                    location: GeoJson, tags: seq<string>, now: int): Place {
    Place(id, name, description, address, location, tags, [], false, None, now)
  }

  /** A fresh place is unverified, has no photos and no `addedBy`, and was
      created now; the caller's fields are kept. */
  lemma NewPlaceDefaults(id: Id, name: string, description: Option<string>, address: Option<string>,
                         location: GeoJson, tags: seq<string>, now: int)
    ensures var p := NewPlace(id, name, description, address, location, tags, now);
      && !p.verified && p.photos == [] && p.addedBy == None && p.createdAt == now
      && p.id == id && p.name == name && p.description == description && p.address == address
      && p.location == location && p.tags == tags
  {
  }
}
