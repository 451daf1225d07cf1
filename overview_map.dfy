/** The overview map component (frontend/src/components/AccessibilityMap.jsx):
    places and volunteers fetched together, a marker for each record that
    has `location.coordinates`, and the skills line of a volunteer popup. */
module OverviewMap {
  import opened Common
  import opened Text
  import opened ClientJson
  import VolunteerSchema
  import VolunteerController

  /** `x.location && x.location.coordinates && <Marker position=
      {[coordinates[1], coordinates[0]]}>`, for places and volunteers
      alike. */
  function MarkerAt(d: RawDoc): (pos: Option<(Scalar, Scalar)>)
    ensures pos.Some? <==> d.location.Some? && d.location.value.coordinates.Some?
    ensures pos.Some? ==>
      var c := d.location.value.coordinates.value;
      pos.value == (At(c, 1), At(c, 0))
  {
    if d.location.Some? && d.location.value.coordinates.Some? then
      var c := d.location.value.coordinates.value;
      Some((At(c, 1), At(c, 0)))
    else None
  }

  function MarkersOf(docs: seq<RawDoc>): (r: seq<(Scalar, Scalar)>)
    ensures |r| <= |docs|
    ensures forall m :: m in r <==> exists k :: 0 <= k < |docs| && MarkerAt(docs[k]) == Some(m)
  {
    if docs == [] then []
    else
      var rest := MarkersOf(docs[1..]);
      assert forall k :: 1 <= k < |docs| ==> docs[k] == docs[1..][k - 1];
      assert forall k :: 0 <= k < |docs[1..]| ==> docs[1..][k] == docs[k + 1];
      match MarkerAt(docs[0])
      case Some(m) => [m] + rest
      case None => rest
  }

  /** A volunteer with a two-number point gets its marker at `(lat, lng)`. */
  lemma VolunteerMarker(v: VolunteerSchema.Volunteer, key: string)
    ensures |v.location.coordinates| == 2 ==>
      var c := v.location.coordinates;
      MarkerAt(VolunteerJson(v, key)) == Some((Num(c[1]), Num(c[0])))
  {
  }

  /** Every volunteer the backend has stored gets a marker, at the
      `(lat, lng)` of its stored point: the store saves no volunteer
      without one. */
  lemma StoredVolunteersMarked(store: VolunteerController.VolunteerStore, id: Id, key: string)
    requires store.Valid() && id in store.records
    ensures var v := store.records[id];
      var c := v.location.coordinates;
      |c| == 2 && MarkerAt(VolunteerJson(v, key)) == Some((Num(c[1]), Num(c[0])))
  {
    VolunteerMarker(store.records[id], key);
  }

  /** `(v.skills || []).join(', ') || 'N/A'`. */
  function SkillsLabel(skills: Option<seq<string>>): string {
    var joined := Join(if skills.Some? then skills.value else [], ", ");
    if joined == "" then "N/A" else joined
  }

  /** The popup falls back to `N/A` exactly when there are no skills or the
      single empty one; otherwise it lists them joined. */
  lemma SkillsLabelFallback(skills: Option<seq<string>>)
    ensures var list := if skills.Some? then skills.value else [];
      (list == [] || list == [""]) ==> SkillsLabel(skills) == "N/A"
    ensures var list := if skills.Some? then skills.value else [];
      !(list == [] || list == [""]) ==> SkillsLabel(skills) == Join(list, ", ") && Join(list, ", ") != ""
  {
    JoinEmpty(if skills.Some? then skills.value else [], ", ");
  }

  /** `api.get(..).catch(() => ({data: []}))` then `res.data || []`:
      `None` is a failed request or a `null` body. */
  function ListOrEmpty(data: Option<seq<RawDoc>>): (r: seq<RawDoc>)
    ensures data.None? ==> r == []
    ensures data.Some? ==> r == data.value
  {
    if data.Some? then data.value else []
  }

  class OverviewState {
    var places: seq<RawDoc>
    var volunteers: seq<RawDoc>
    var loading: bool
    /** The effect's `isMounted` flag. */
    var mounted: bool

    constructor ()
      ensures places == [] && volunteers == [] && loading && mounted
    {
      places := [];
      volunteers := [];
      loading := true;
      mounted := true;
    }

    /** The effect's cleanup. */
    method Unmount()
      modifies this
      ensures !mounted && places == old(places) && volunteers == old(volunteers) && loading == old(loading)
    {
      mounted := false;
    }

    /** Both requests settled. After an unmount nothing is set; otherwise
        both lists are set, a failure giving an empty list rather than an
        error, and loading ends. */
    method Settle(placesData: Option<seq<RawDoc>>, volunteersData: Option<seq<RawDoc>>)
      modifies this
      ensures mounted == old(mounted)
      ensures !old(mounted) ==> places == old(places) && volunteers == old(volunteers) && loading == old(loading)
      ensures old(mounted) ==> places == ListOrEmpty(placesData) && volunteers == ListOrEmpty(volunteersData) && !loading
    {
      if !mounted {
        return;
      }
      places := ListOrEmpty(placesData);
      volunteers := ListOrEmpty(volunteersData);
      loading := false;
    }
  }
}
