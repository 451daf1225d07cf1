/** The accessibility map page (frontend/src/pages/AccessibilityMap.jsx):
    normalising fetched places, choosing marker icons, validating and
    submitting a new place, and the form helpers. */
module MapPage {
  import opened Common
  import opened Text
  import opened ClientJson
  import PlaceSchema
  import PlaceController

  /** A place in the page's own shape. */
  datatype Normalized = Normalized(
    id: Option<string>,
    name: string,
    description: string,
    kind: string,
    lat: real,
    lng: real,
    verified: bool,
    tags: seq<string>,
    photos: seq<string>)

  /** The raw `(lat, lng)` pair of the first coordinate format present:
      GeoJSON `location.coordinates` (`[lng, lat]`), then truthy `lat` and
      `lng`, then truthy `latitude` and `longitude`. */
  function RawLatLng(p: RawDoc): (r: Option<(Scalar, Scalar)>)
    ensures p.location.Some? && p.location.value.coordinates.Some? ==>
      var c := p.location.value.coordinates.value;
      r == Some((At(c, 1), At(c, 0)))
    ensures !(p.location.Some? && p.location.value.coordinates.Some?) && Truthy(p.lat) && Truthy(p.lng) ==>
      r == Some((p.lat, p.lng))
    ensures !(p.location.Some? && p.location.value.coordinates.Some?) && !(Truthy(p.lat) && Truthy(p.lng)) ==>
      r == (if Truthy(p.latitude) && Truthy(p.longitude) then Some((p.latitude, p.longitude)) else None)
  {
    if p.location.Some? && p.location.value.coordinates.Some? then
      var c := p.location.value.coordinates.value;
      Some((At(c, 1), At(c, 0)))
    else if Truthy(p.lat) && Truthy(p.lng) then Some((p.lat, p.lng))
    else if Truthy(p.latitude) && Truthy(p.longitude) then Some((p.latitude, p.longitude))
    else None
  }

  /** `normalizePlaceData`: `null` (`None`) when no format is present or a
      coordinate does not parse; otherwise the parsed coordinates and the
      page's defaults. */
  function Normalize(p: RawDoc, parseText: string -> Option<real>): (r: Option<Normalized>)
    ensures r.Some? <==>
      RawLatLng(p).Some? && ParseFloat(RawLatLng(p).value.0, parseText).Some?
      && ParseFloat(RawLatLng(p).value.1, parseText).Some?
    ensures r.Some? ==>
      && r.value.lat == ParseFloat(RawLatLng(p).value.0, parseText).value
      && r.value.lng == ParseFloat(RawLatLng(p).value.1, parseText).value
  {
    match RawLatLng(p)
    case None => None
    case Some((la, ln)) =>
      match (ParseFloat(la, parseText), ParseFloat(ln, parseText))
      case (Some(lat), Some(lng)) =>
        Some(Normalized(
          if TruthyText(p.dbId) then p.dbId else p.id,
          TextOr(p.name, "Unnamed Facility"),
          TextOr(p.description, ""),
          TextOr(p.kind, "ramp"),
          lat, lng,
          p.verified == Some(true),
          if p.tags.Some? then p.tags.value else [],
          if p.photos.Some? then p.photos.value else []))
      case _ => None
  }

  /** A GeoJSON array shorter than two entries is rejected, even when
      `lat`/`lng` fields are present as well. */
  lemma ShortCoordinatesRejected(p: RawDoc, parseText: string -> Option<real>)
    requires p.location.Some? && p.location.value.coordinates.Some?
    requires |p.location.value.coordinates.value| < 2
    ensures Normalize(p, parseText) == None
  {
  }

  /** The defaults: no name is `Unnamed Facility`, no description `''`, no
      type `ramp`, unverified, no tags or photos; the id is `_id`, else
      `id`. A truthy field of the document is kept as it is. */
  lemma NormalizeDefaults(p: RawDoc, parseText: string -> Option<real>)
    requires Normalize(p, parseText).Some?
    ensures var n := Normalize(p, parseText).value;
      && (!TruthyText(p.name) ==> n.name == "Unnamed Facility")
      && (!TruthyText(p.description) ==> n.description == "")
      && (!TruthyText(p.kind) ==> n.kind == "ramp")
      && (p.verified != Some(true) ==> !n.verified)
      && (p.tags.None? ==> n.tags == []) && (p.photos.None? ==> n.photos == [])
      && n.id == (if TruthyText(p.dbId) then p.dbId else p.id)
    ensures var n := Normalize(p, parseText).value;
      && (TruthyText(p.name) ==> n.name == p.name.value)
      && (TruthyText(p.description) ==> n.description == p.description.value)
      && (TruthyText(p.kind) ==> n.kind == p.kind.value)
      && (p.verified == Some(true) ==> n.verified)
      && (p.tags.Some? ==> n.tags == p.tags.value) && (p.photos.Some? ==> n.photos == p.photos.value)
  {
  }

  /** A stored place, as the backend sends it, normalises with its
      coordinates read back in `(lat, lng)` order and with type `ramp`:
      the type chosen in the form is never stored. */
  lemma BackendPlaceNormalizes(p: PlaceSchema.Place, key: string, parseText: string -> Option<real>)
    requires |p.location.coordinates| == 2 && key != ""
    ensures var n := Normalize(PlaceJson(p, key), parseText);
      && n.Some?
      && n.value.lat == p.location.coordinates[1] && n.value.lng == p.location.coordinates[0]
      && n.value.kind == "ramp" && n.value.id == Some(key)
      && n.value.tags == p.tags && n.value.verified == p.verified
  {
  }

  /** `res.data.map(normalizePlaceData).filter(p => p !== null)`. */
  function FetchedPlaces(raw: seq<RawDoc>, parseText: string -> Option<real>): (r: seq<Normalized>)
    ensures |r| <= |raw|
    ensures forall n :: n in r <==> exists k :: 0 <= k < |raw| && Normalize(raw[k], parseText) == Some(n)
  {
    if raw == [] then []
    else
      var rest := FetchedPlaces(raw[1..], parseText);
      assert forall k :: 1 <= k < |raw| ==> raw[k] == raw[1..][k - 1];
      assert forall k :: 0 <= k < |raw[1..]| ==> raw[1..][k] == raw[k + 1];
      match Normalize(raw[0], parseText)
      case Some(n) => [n] + rest
      case None => rest
  }

  /** Filtering respects concatenation, so the kept places are in their
      original order. */
  lemma {:induction false} FetchedPlacesAppend(a: seq<RawDoc>, b: seq<RawDoc>, parseText: string -> Option<real>)
    ensures FetchedPlaces(a + b, parseText) == FetchedPlaces(a, parseText) + FetchedPlaces(b, parseText)
  {
    if a != [] {
      assert (a + b)[0] == a[0];
      assert (a + b)[1..] == a[1..] + b;
      FetchedPlacesAppend(a[1..], b, parseText);
    } else {
      assert a + b == b;
    }
  }

  /** The newly created place as the page appends it: nothing when it does
      not normalise. */
  function Appended(doc: RawDoc, parseText: string -> Option<real>): (r: seq<Normalized>)
    ensures r == FetchedPlaces([doc], parseText)
  {
    assert [doc][1..] == [];
    match Normalize(doc, parseText)
    case Some(n) => [n]
    case None => []
  }

  /** `getIcon`: the type's icon, the default icon for any other type. */
  function IconUrl(kind: string): (url: string)
    ensures kind !in {"ramp", "elevator", "braille"} ==> url == "/icons/default.png"
    ensures kind == "ramp" ==> url == "/icons/disabled.png"
    ensures kind == "elevator" ==> url == "/icons/elevator.png"
    ensures kind == "braille" ==> url == "/icons/braille.png"
  {
    if kind == "ramp" then "/icons/disabled.png"
    else if kind == "elevator" then "/icons/elevator.png"
    else if kind == "braille" then "/icons/braille.png"
    else "/icons/default.png"
  }

  datatype LatLng = LatLng(lat: real, lng: real)

  /** The form state `newPlace`. */
  datatype PlaceForm = PlaceForm(name: string, description: string, kind: string)

  const EmptyForm := PlaceForm("", "", "")

  /** The submit handler's checks, in order; the alert of the first that
      fails, or `None`. */
  function ValidateAddPlace(selected: Option<LatLng>, form: PlaceForm): (alert: Option<string>)
    ensures selected.None? ==> alert == Some("Please select location on the map!")
    ensures selected.Some? && form.kind == "" ==> alert == Some("Please select facility type!")
    ensures selected.Some? && form.kind != "" && Trim(form.name) == "" ==> alert == Some("Please enter a facility name!")
    ensures alert.None? <==> selected.Some? && form.kind != "" && Trim(form.name) != ""
  {
    if selected.None? then Some("Please select location on the map!")
    else if form.kind == "" then Some("Please select facility type!")
    else if Trim(form.name) == "" then Some("Please enter a facility name!")
    else None
  }

  /** The submit button's `disabled` expression. */
  predicate SubmitDisabled(selected: Option<LatLng>, form: PlaceForm, submitting: bool) {
    selected.None? || form.kind == "" || Trim(form.name) == "" || submitting
  }

  /** An enabled button always passes validation, and an idle form whose
      validation fails has the button disabled. */
  lemma ButtonMatchesValidation(selected: Option<LatLng>, form: PlaceForm, submitting: bool)
    ensures !SubmitDisabled(selected, form, submitting) ==> ValidateAddPlace(selected, form).None?
    ensures !submitting ==> (SubmitDisabled(selected, form, submitting) <==> ValidateAddPlace(selected, form).Some?)
  {
  }

  /** The body POSTed by `handleAddPlaceAlternative`, as the create handler
      reads it (`type` is sent but not read; no tags). */
  function AddPlacePayload(form: PlaceForm, at: LatLng): PlaceController.PlaceRequest {
    PlaceController.PlaceRequest(Some(form.name), Some(form.description), None,
                                 Some(at.lat), Some(at.lng), None)
  }

  /** A submission that passes validation is accepted by the backend unless
      the clicked point lies on the equator or the prime meridian, where the
      falsy `0` makes the backend answer 400. */
  lemma ValidatedPayloadAccepted(selected: Option<LatLng>, form: PlaceForm)
    requires ValidateAddPlace(selected, form).None?
    ensures PlaceController.HasFields(AddPlacePayload(form, selected.value))
      <==> selected.value.lat != 0.0 && selected.value.lng != 0.0
  {
    TrimEmptyIffAllSpace(form.name);
  }

  /** What the create request came back with. */
  datatype CreateOutcome =
    | CreatedDoc(doc: RawDoc)
    | CreateFailed(serverMsg: Option<string>, message: string)

  class MapPageState {
    var selected: Option<LatLng>
    var selectedType: string
    var form: PlaceForm
    var allPlaces: seq<Normalized>

    constructor ()
      ensures selected == None && selectedType == "" && form == EmptyForm && allPlaces == []
    {
      selected := None;
      selectedType := "";
      form := EmptyForm;
      allPlaces := [];
    }

    /** `handleResetForm`: every form field and the selection cleared. */
    method ResetForm()
      modifies this
      ensures form == EmptyForm && selected == None && selectedType == ""
      ensures allPlaces == old(allPlaces)
    {
      form := EmptyForm;
      selected := None;
      selectedType := "";
    }

    /** `handleClearSelection`: only the selection and its type cleared. */
    method ClearSelection()
      modifies this
      ensures selected == None && selectedType == ""
      ensures form == old(form) && allPlaces == old(allPlaces)
    {
      selected := None;
      selectedType := "";
    }

    /** `handleTypeChange`. */
    method TypeChange(kind: string)
      modifies this
      ensures form == old(form).(kind := kind) && selectedType == kind
      ensures selected == old(selected) && allPlaces == old(allPlaces)
    {
      form := form.(kind := kind);
      selectedType := kind;
    }

    /** A map click selects the point and, when no type is selected yet,
        adopts the form's type. */
    method MapClick(at: LatLng)
      modifies this
      ensures selected == Some(at)
      ensures selectedType == (if old(selectedType) == "" && old(form.kind) != "" then old(form.kind) else old(selectedType))
      ensures form == old(form) && allPlaces == old(allPlaces)
    {
      selected := Some(at);
      if selectedType == "" && form.kind != "" {
        selectedType := form.kind;
      }
    }

    /** `fetchPlaces`: the normalised list on success (`Some`), an alert and
        the list untouched on failure. */
    method FetchPlaces(result: Option<seq<RawDoc>>, parseText: string -> Option<real>) returns (alerts: seq<string>)
      modifies this
      ensures result.Some? ==> allPlaces == FetchedPlaces(result.value, parseText) && alerts == []
      ensures result.None? ==> allPlaces == old(allPlaces) && alerts == ["Error loading existing facilities"]
      ensures selected == old(selected) && selectedType == old(selectedType) && form == old(form)
    {
      if result.Some? {
        allPlaces := FetchedPlaces(result.value, parseText);
        alerts := [];
      } else {
        alerts := ["Error loading existing facilities"];
      }
    }

    /** `handleAddPlaceAlternative`. A failed check alerts and changes
        nothing. A failed request alerts the server's `msg` (else the error's
        message) and changes nothing. A created place is appended when it
        normalises, the list is then re-fetched (`refetch`), and the form is
        emptied while the selection stays. */
    method SubmitAddPlace(outcome: CreateOutcome, refetch: Option<seq<RawDoc>>, parseText: string -> Option<real>)
      returns (alerts: seq<string>)
      modifies this
      ensures ValidateAddPlace(old(selected), old(form)).Some? ==>
        && alerts == [ValidateAddPlace(old(selected), old(form)).value]
        && allPlaces == old(allPlaces) && form == old(form)
      ensures ValidateAddPlace(old(selected), old(form)).None? && outcome.CreateFailed? ==>
        && alerts == ["Error adding place: " + TextOr(outcome.serverMsg, outcome.message)]
        && allPlaces == old(allPlaces) && form == old(form)
      ensures ValidateAddPlace(old(selected), old(form)).None? && outcome.CreatedDoc? ==>
        && form == EmptyForm
        && allPlaces == (if refetch.Some? then FetchedPlaces(refetch.value, parseText)
                         else old(allPlaces) + Appended(outcome.doc, parseText))
        && alerts == ["Place added successfully!"] + (if refetch.Some? then [] else ["Error loading existing facilities"])
      ensures selected == old(selected) && selectedType == old(selectedType)
    {
      var check := ValidateAddPlace(selected, form);
      if check.Some? {
        return [check.value];
      }
      match outcome
      case CreateFailed(serverMsg, message) =>
        alerts := ["Error adding place: " + TextOr(serverMsg, message)];
      case CreatedDoc(doc) =>
        allPlaces := allPlaces + Appended(doc, parseText);
        var more := FetchPlaces(refetch, parseText);
        alerts := ["Place added successfully!"] + more;
        form := EmptyForm;
    }
  }
}
