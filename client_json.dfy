/** The JSON the browser code receives, as far as the pages inspect it: a
    field may be missing, a number or a string, and `parseFloat` of a string
    is the parameter `parseText` (`None` standing for `NaN`). Also how the
    backend documents appear in that form. */
module ClientJson {
  import opened Common
  import PlaceSchema
  import VolunteerSchema

  datatype Scalar = Missing | Num(x: real) | Text(s: string)

  /** JavaScript truthiness: `undefined`, `0` and `''` are falsy. */
  predicate Truthy(v: Scalar) {
    match v
    case Missing => false
    case Num(x) => x != 0.0
    case Text(s) => s != ""
  }

  /** `xs[i]`, `undefined` past the end. */
  function At(xs: seq<Scalar>, i: nat): (v: Scalar)
    ensures i < |xs| ==> v == xs[i]
    ensures i >= |xs| ==> v == Missing
  {
    if i < |xs| then xs[i] else Missing
  }

  /** `parseFloat(v)`: a number is itself, `undefined` is `NaN`. */
  function ParseFloat(v: Scalar, parseText: string -> Option<real>): (r: Option<real>)
    ensures v.Num? ==> r == Some(v.x)
    ensures v.Missing? ==> r == None
    ensures v.Text? ==> r == parseText(v.s)
  {
    match v
    case Missing => None
    case Num(x) => Some(x)
    case Text(s) => parseText(s)
  }

  /** `{coordinates}` of a `location` object. */
  datatype RawLocation = RawLocation(coordinates: Option<seq<Scalar>>)

  /** A place or volunteer object as received; `dbId` is `_id`. */
  datatype RawDoc = RawDoc(
    dbId: Option<string>,
    id: Option<string>,
    name: Option<string>,
    description: Option<string>,
    address: Option<string>,
    kind: Option<string>,
    location: Option<RawLocation>,
    coordinates: Option<seq<Scalar>>,
    lat: Scalar,
    lng: Scalar,
    latitude: Scalar,
    longitude: Scalar,
    verified: Option<bool>,
    tags: Option<seq<string>>,
    photos: Option<seq<string>>,
    skills: Option<seq<string>>,
    city: Option<string>,
    phone: Option<string>)

  function Nums(xs: seq<real>): (r: seq<Scalar>)
    ensures |r| == |xs|
    ensures forall k :: 0 <= k < |xs| ==> r[k] == Num(xs[k])
  {
    seq(|xs|, k requires 0 <= k < |xs| => Num(xs[k]))
  }

  /** How a stored place is serialised, `key` being its `_id`; the schema
      has no `type` field, so none is sent. */
  function PlaceJson(p: PlaceSchema.Place, key: string): (d: RawDoc)
    ensures d.kind == None && d.location == Some(RawLocation(Some(Nums(p.location.coordinates))))
  {
    RawDoc(Some(key), None, Some(p.name), p.description, p.address, None,
           Some(RawLocation(Some(Nums(p.location.coordinates)))), None,
           Missing, Missing, Missing, Missing,
           Some(p.verified), Some(p.tags), Some(p.photos), None, None, None)
  }

  /** How a stored volunteer is serialised, `key` being its `_id`. */
  function VolunteerJson(v: VolunteerSchema.Volunteer, key: string): (d: RawDoc)
    ensures d.location == Some(RawLocation(Some(Nums(v.location.coordinates))))
    ensures d.skills == Some(v.skills)
  {
    RawDoc(Some(key), None, Some(v.name), None, None, None,
           Some(RawLocation(Some(Nums(v.location.coordinates)))),
           None, Missing, Missing, Missing, Missing,
           Some(v.verified), None, None, Some(v.skills), v.city, v.phone)
  }
}
