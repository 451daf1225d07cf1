/** The admin dashboard (frontend/src/pages/AdminDashboard.jsx): counts and
    top-ten lists from the four listings, deleting a place, changing an
    alert's status, and the redirect when nobody is logged in. */
module AdminDashboard {
  import opened Common
  import opened Query
  import opened SosSchema
  import opened ClientJson
  import SosController

  datatype Stats = Stats(places: int, sos: int, schemes: int, volunteers: int)

  /** The four answers of `Promise.all`; scheme documents are only counted. */
  datatype DashboardData = DashboardData(places: seq<RawDoc>, sos: seq<Sos>, schemeCount: nat, volunteers: seq<RawDoc>)

  const ShownRows: nat := 10
  const LoginPath := "/admin/login"

  /** `prev.map(sos => sos._id === id ? {...sos, status} : sos)`. */
  function UpdateById(rows: seq<Sos>, id: Id, status: string): (r: seq<Sos>)
    ensures |r| == |rows|
    ensures forall k :: 0 <= k < |rows| ==> r[k] == (if rows[k].id == id then WithStatus(rows[k], status) else rows[k])
  {
    seq(|rows|, k requires 0 <= k < |rows| => if rows[k].id == id then WithStatus(rows[k], status) else rows[k])
  }

  /** A row showing a stored alert shows it as the backend stores it after
      the same status update; every other row is untouched. */
  lemma UpdateMirrorsBackend(rows: seq<Sos>, k: nat, stored: Sos, status: string)
    requires k < |rows| && rows[k] == stored
    ensures UpdateById(rows, stored.id, status)[k] == WithStatus(stored, status)
    ensures forall j :: 0 <= j < |rows| && rows[j].id != stored.id ==> UpdateById(rows, stored.id, status)[j] == rows[j]
  {
  }

  /** `places.filter(p => p._id !== id)`. */
  function RemovePlace(rows: seq<RawDoc>, id: string): (r: seq<RawDoc>)
    ensures |r| <= |rows|
    ensures forall p :: p in r <==> p in rows && p.dbId != Some(id)
  {
    Filter(rows, (p: RawDoc) => p.dbId != Some(id))
  }

  /** The page renders only for a logged-in user (`return null` otherwise). */
  predicate Renders(isAuthenticated: bool) {
    isAuthenticated
  }

  class DashboardState {
    var stats: Stats
    var places: seq<RawDoc>
    var sosRequests: seq<Sos>
    /** Paths passed to `navigate`, oldest first. */
    var navigations: seq<string>

    constructor ()
      ensures stats == Stats(0, 0, 0, 0) && places == [] && sosRequests == [] && navigations == []
    {
      stats := Stats(0, 0, 0, 0);
      places := [];
      sosRequests := [];
      navigations := [];
    }

    /** `loadDashboardData`: on success (`Some`) each stat is the length of
        its listing and the lists are the first ten of theirs; a failure
        changes nothing. */
    method Load(data: Option<DashboardData>)
      modifies this
      ensures data.Some? ==>
        var d := data.value;
        && stats == Stats(|d.places|, |d.sos|, d.schemeCount, |d.volunteers|)
        && places == Take(d.places, ShownRows) && sosRequests == Take(d.sos, ShownRows)
      ensures data.None? ==> stats == old(stats) && places == old(places) && sosRequests == old(sosRequests)
      ensures navigations == old(navigations)
    {
      if data.Some? {
        var d := data.value;
        stats := Stats(|d.places|, |d.sos|, d.schemeCount, |d.volunteers|);
        places := Take(d.places, ShownRows);
        sosRequests := Take(d.sos, ShownRows);
      }
    }

    /** The mount effect: without a user, a redirect to the login page and
        nothing loaded; with one, the data loaded. */
    method Mount(isAuthenticated: bool, data: Option<DashboardData>)
      modifies this
      ensures !isAuthenticated ==>
        && navigations == old(navigations) + [LoginPath]
        && stats == old(stats) && places == old(places) && sosRequests == old(sosRequests)
      ensures isAuthenticated ==> navigations == old(navigations)
      ensures isAuthenticated && data.Some? ==>
        var d := data.value;
        && stats == Stats(|d.places|, |d.sos|, d.schemeCount, |d.volunteers|)
        && places == Take(d.places, ShownRows) && sosRequests == Take(d.sos, ShownRows)
      ensures isAuthenticated && data.None? ==>
        stats == old(stats) && places == old(places) && sosRequests == old(sosRequests)
    {
      if !isAuthenticated {
        navigations := navigations + [LoginPath];
        return;
      }
      Load(data);
    }

    /** `handleDeletePlace`. Confirmed and served: the rows with that `_id`
        go and the places count drops by exactly one (whether or not a shown
        row had the id). Refused by the server: an alert with its `msg`
        (`undefined` when there is none). Not confirmed: nothing. */
    method DeletePlace(id: string, confirmed: bool, served: bool, serverMsg: Option<string>) returns (message: Option<string>)
      modifies this
      ensures confirmed && served ==>
        && places == RemovePlace(old(places), id) && stats == old(stats).(places := old(stats).places - 1)
        && message == None
      ensures confirmed && !served ==>
        && places == old(places) && stats == old(stats)
        && message == Some("Error deleting place: " + (if serverMsg.Some? then serverMsg.value else "undefined"))
      ensures !confirmed ==> places == old(places) && stats == old(stats) && message == None
      ensures sosRequests == old(sosRequests) && navigations == old(navigations)
    {
      message := None;
      if !confirmed {
        return;
      }
      if served {
        places := RemovePlace(places, id);
        stats := stats.(places := stats.places - 1);
      } else {
        message := Some("Error deleting place: " + (if serverMsg.Some? then serverMsg.value else "undefined"));
      }
    }

    /** `handleUpdateSosStatus`: when served, the status of the rows with
        that `_id` changes and nothing else; otherwise an alert. */
    method UpdateSosStatus(id: Id, status: string, served: bool, serverMsg: Option<string>) returns (message: Option<string>)
      modifies this
      ensures served ==> sosRequests == UpdateById(old(sosRequests), id, status) && message == None
      ensures !served ==>
        && sosRequests == old(sosRequests)
        && message == Some("Error updating SOS status: " + (if serverMsg.Some? then serverMsg.value else "undefined"))
      ensures places == old(places) && stats == old(stats) && navigations == old(navigations)
    {
      if served {
        sosRequests := UpdateById(sosRequests, id, status);
        message := None;
      } else {
        message := Some("Error updating SOS status: " + (if serverMsg.Some? then serverMsg.value else "undefined"));
      }
    }
  }

  /** The ten alerts the dashboard shows, taken from GET /sos, are the ten
      newest in the SOS collection: newest first, as many as there are up to
      ten, and none left out is newer than one shown. */
  lemma ShownSosAreNewest(store: SosController.SosStore)
    ensures var all := store.Listing(); var shown := Take(store.GetAllSos(), ShownRows);
      && |shown| == Min(ShownRows, |all|)
      && SortedDesc(shown, CreatedAt)
      && forall x, y :: x in multiset(all) - multiset(shown) && y in shown ==> x.createdAt <= y.createdAt
  {
    NewestPrefix(store.Listing(), SosController.ListLimit, ShownRows, CreatedAt);
  }
}
