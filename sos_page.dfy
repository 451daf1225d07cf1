/** The SOS alerts page (frontend/src/pages/SOS.jsx): the initial list from
    GET /sos, live alerts from the socket, and acknowledging an alert. */
module SosPage {
  import opened Common
  import opened Query
  import opened SosSchema
  import SosController
  import SosRoutes

  /** An entry of `alerts`: `_id` (absent on a broadcast payload), message
      and creation time. */
  datatype PageAlert = PageAlert(dbId: Option<Id>, message: string, createdAt: int)

  function FromDoc(s: Sos): PageAlert {
    PageAlert(Some(s.id), s.message, s.createdAt)
  }

  function PageTime(a: PageAlert): int {
    a.createdAt
  }

  function FromDocs(docs: seq<Sos>): (r: seq<PageAlert>)
    ensures |r| == |docs|
    ensures forall k :: 0 <= k < |docs| ==> r[k] == FromDoc(docs[k])
  {
    seq(|docs|, k requires 0 <= k < |docs| => FromDoc(docs[k]))
  }

  function Reverse<T>(s: seq<T>): (r: seq<T>)
    ensures |r| == |s|
    ensures forall k :: 0 <= k < |s| ==> r[k] == s[|s| - 1 - k]
  {
    if s == [] then [] else Reverse(s[1..]) + [s[0]]
  }

  /** The initial list as written: `initial.slice().reverse()`. */
  function InitialAlertsAsWritten(docs: seq<Sos>): seq<PageAlert> {
    Reverse(FromDocs(docs))
  }

  /** Reversing a newest-first list whose newest and oldest entries differ
      in time puts the oldest on top: the page is not newest first. */
  lemma ReversalShowsOldestFirst(docs: seq<Sos>)
    requires SortedDesc(docs, CreatedAt)
    requires |docs| >= 2 && docs[0].createdAt != docs[|docs| - 1].createdAt
    ensures var r := InitialAlertsAsWritten(docs);
      && r[0].createdAt < r[|r| - 1].createdAt
      && !SortedDesc(r, PageTime)
  {
    var r := InitialAlertsAsWritten(docs);
    assert CreatedAt(docs[0]) >= CreatedAt(docs[|docs| - 1]);
    assert r[0] == FromDoc(docs[|docs| - 1]) && r[|r| - 1] == FromDoc(docs[0]);
    assert PageTime(r[0]) < PageTime(r[|r| - 1]);
  }

  /** GET /sos answers newest first, so on the page as written the oldest
      alert of any answer with two different times comes first. */
  lemma InitialReversalShowsOldestFirst(store: SosController.SosStore)
    requires |store.GetAllSos()| >= 2
    requires store.GetAllSos()[0].createdAt != store.GetAllSos()[|store.GetAllSos()| - 1].createdAt
    ensures !SortedDesc(InitialAlertsAsWritten(store.GetAllSos()), PageTime)
  {
    ReversalShowsOldestFirst(store.GetAllSos());
  }

  /** The initial list as intended ("show newest first"): the fetched order
      kept. */
  function InitialAlerts(docs: seq<Sos>): (r: seq<PageAlert>)
    ensures |r| == |docs|
    ensures forall k :: 0 <= k < |docs| ==> r[k] == FromDoc(docs[k])
    ensures SortedDesc(docs, CreatedAt) ==> SortedDesc(r, PageTime)
  {
    var r := FromDocs(docs);
    assert forall k :: 0 <= k < |docs| ==> PageTime(r[k]) == CreatedAt(docs[k]);
    r
  }

  /** The intended list of a GET /sos answer is newest first. */
  lemma InitialAlertsNewestFirst(store: SosController.SosStore)
    ensures SortedDesc(InitialAlerts(store.GetAllSos()), PageTime)
  {
  }

  /** The event names the backend broadcasts: `sosAlert` and `sosUpdate`
      from the SOS handlers, `sosAcknowledged` from the socket relay. */
  function EventName(e: SosController.Event): string {
    match e
    case SosAlert(_, _, _, _, _) => "sosAlert"
    case SosUpdate(_, _) => "sosUpdate"
  }

  const Broadcasts: set<string> := {"sosAlert", "sosUpdate", "sosAcknowledged"}

  lemma EventNamesBroadcast(e: SosController.Event)
    ensures EventName(e) in Broadcasts
  {
  }

  /** The live handler as written: `socket.on('sos', data => [data, ...prev])`. */
  const ListenedAsWritten := "sos"

  function OnSocketAsWritten(alerts: seq<PageAlert>, name: string, payload: PageAlert): seq<PageAlert> {
    if name == ListenedAsWritten then [payload] + alerts else alerts
  }

  /** No broadcast is ever called `sos`, so as written the page never adds
      a live alert. */
  lemma LiveFeedNeverUpdates(alerts: seq<PageAlert>, name: string, payload: PageAlert)
    requires name in Broadcasts
    ensures OnSocketAsWritten(alerts, name, payload) == alerts
  {
  }

  /** The broadcast payload `{id, lat, lng, message, createdAt}` as an
      entry: it has `id`, not `_id`. */
  function FromAlert(e: SosController.Event): PageAlert
    requires e.SosAlert?
  {
    PageAlert(None, e.message, e.createdAt)
  }

  /** The live handler as intended: listening to `sosAlert`, prepending. */
  function OnSocket(alerts: seq<PageAlert>, name: string, e: SosController.Event): (r: seq<PageAlert>)
    ensures name == "sosAlert" && e.SosAlert? ==> r == [FromAlert(e)] + alerts
    ensures !(name == "sosAlert" && e.SosAlert?) ==> r == alerts
  {
    if name == "sosAlert" && e.SosAlert? then [FromAlert(e)] + alerts else alerts
  }

  /** Every alert the backend broadcasts reaches the intended handler and
      heads the list. */
  lemma BroadcastReachesPage(alerts: seq<PageAlert>, e: SosController.Event)
    requires e.SosAlert?
    ensures var r := OnSocket(alerts, EventName(e), e);
      |r| == |alerts| + 1 && r[0] == FromAlert(e) && r[1..] == alerts
  {
  }

  /** `prev.filter(a => a._id !== id)`. */
  function AckRemove(alerts: seq<PageAlert>, id: Option<Id>): (r: seq<PageAlert>)
    ensures |r| <= |alerts|
    ensures forall a :: a in r <==> a in alerts && a.dbId != id
  {
    Filter(alerts, (a: PageAlert) => a.dbId != id)
  }

  /** Removal keeps the survivors in order, and removes nothing when no
      entry carries the id. */
  lemma AckRemoveOrder(a: seq<PageAlert>, b: seq<PageAlert>, id: Option<Id>)
    ensures AckRemove(a + b, id) == AckRemove(a, id) + AckRemove(b, id)
    ensures (forall k :: 0 <= k < |a| ==> a[k].dbId != id) ==> AckRemove(a, id) == a
  {
    FilterAppend(a, b, (x: PageAlert) => x.dbId != id);
    if forall k :: 0 <= k < |a| ==> a[k].dbId != id {
      FilterAll(a, (x: PageAlert) => x.dbId != id);
    }
  }

  /** POST /sos/ack has no route: the acknowledge request never succeeds. */
  lemma AcknowledgeNeverServed(tokenValid: bool)
    ensures SosRoutes.Dispatch(SosRoutes.Post, ["ack"], tokenValid) == SosRoutes.NoRoute
  {
    SosRoutes.RouteTable("x", tokenValid);
  }

  class SosPageState {
    var alerts: seq<PageAlert>

    constructor ()
      ensures alerts == []
    {
      alerts := [];
    }

    /** The effect on `initial`: a fetched list (`Some`) replaces the
        alerts, newest first. */
    method LoadInitial(initial: Option<seq<Sos>>)
      modifies this
      ensures initial.Some? ==> alerts == InitialAlerts(initial.value)
      ensures initial.None? ==> alerts == old(alerts)
    {
      if initial.Some? {
        alerts := InitialAlerts(initial.value);
      }
    }

    method OnBroadcast(name: string, e: SosController.Event)
      modifies this
      ensures alerts == OnSocket(old(alerts), name, e)
    {
      alerts := OnSocket(alerts, name, e);
    }

    /** `handleAcknowledge`: when the request is served the entries with
        that `_id` go; otherwise an alert and no change. */
    method Acknowledge(id: Option<Id>, served: bool) returns (message: Option<string>)
      modifies this
      ensures served ==> alerts == AckRemove(old(alerts), id) && message == None
      ensures !served ==> alerts == old(alerts) && message == Some("Failed to acknowledge (endpoint may not exist).")
    {
      if served {
        alerts := AckRemove(alerts, id);
        message := None;
      } else {
        message := Some("Failed to acknowledge (endpoint may not exist).");
      }
    }
  }
}
