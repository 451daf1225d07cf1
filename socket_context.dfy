/** The socket provider (frontend/src/contexts/SocketContext.jsx): the live
    alert list kept from the backend's `sosAlert` and `sosUpdate`
    broadcasts, the guarded `ackSos` emit, and the `useSocket` guard. */
module SocketContext {
  import opened Common
  import SosController

  /** An entry of `sosAlerts`: the broadcast `{id, lat, lng, message,
      createdAt}`, plus the `status` a later `sosUpdate` spreads in. */
  datatype LiveAlert = LiveAlert(id: Id, lat: real, lng: real, message: string, createdAt: int, status: Option<string>)

  function FromBroadcast(id: Id, lat: real, lng: real, message: string, createdAt: int): LiveAlert {
    LiveAlert(id, lat, lng, message, createdAt, None)
  }

  /** The `sosAlert` handler: `[alert, ...prev]`. */
  function OnAlert(alerts: seq<LiveAlert>, a: LiveAlert): (r: seq<LiveAlert>)
    ensures |r| == |alerts| + 1 && r[0] == a && r[1..] == alerts
  {
    [a] + alerts
  }

  /** The `sosUpdate` handler: `prev.map(a => a.id === id ? {...a, status} : a)`. */
  function OnUpdate(alerts: seq<LiveAlert>, id: Id, status: string): (r: seq<LiveAlert>)
    ensures |r| == |alerts|
    ensures forall k :: 0 <= k < |alerts| ==>
      r[k] == (if alerts[k].id == id then alerts[k].(status := Some(status)) else alerts[k])
  {
    seq(|alerts|, k requires 0 <= k < |alerts| =>
      if alerts[k].id == id then alerts[k].(status := Some(status)) else alerts[k])
  }

  /** An update keeps length and order, touches only `status` and only on
      matching entries; with no match the list is unchanged; applying it
      twice is applying it once. */
  lemma OnUpdateProperties(alerts: seq<LiveAlert>, id: Id, status: string)
    ensures var r := OnUpdate(alerts, id, status);
      && (forall k :: 0 <= k < |alerts| ==> r[k].(status := alerts[k].status) == alerts[k])
      && (forall k :: 0 <= k < |alerts| && alerts[k].id != id ==> r[k] == alerts[k])
      && (forall k :: 0 <= k < |alerts| && alerts[k].id == id ==> r[k].status == Some(status))
      && ((forall k :: 0 <= k < |alerts| ==> alerts[k].id != id) ==> r == alerts)
      && OnUpdate(r, id, status) == r
  {
  }

  /** What a broadcast does to the list. */
  function Apply(alerts: seq<LiveAlert>, e: SosController.Event): seq<LiveAlert> {
    match e
    case SosAlert(id, lat, lng, message, createdAt) => OnAlert(alerts, FromBroadcast(id, lat, lng, message, createdAt))
    case SosUpdate(id, status) => OnUpdate(alerts, id, status)
  }

  /** The list after a run of broadcasts, oldest first. */
  function Replay(alerts: seq<LiveAlert>, events: seq<SosController.Event>): seq<LiveAlert>
    decreases |events|
  {
    if events == [] then alerts else Replay(Apply(alerts, events[0]), events[1..])
  }

  function AlertCount(events: seq<SosController.Event>): nat {
    if events == [] then 0 else (if events[0].SosAlert? then 1 else 0) + AlertCount(events[1..])
  }

  /** Each `sosAlert` adds one entry and each `sosUpdate` none. */
  lemma {:induction false} ReplayLength(alerts: seq<LiveAlert>, events: seq<SosController.Event>)
    ensures |Replay(alerts, events)| == |alerts| + AlertCount(events)
    decreases |events|
  {
    if events != [] {
      ReplayLength(Apply(alerts, events[0]), events[1..]);
    }
  }

  /** Replaying one more broadcast is applying it to the replayed list. */
  lemma {:induction false} ReplaySnoc(alerts: seq<LiveAlert>, events: seq<SosController.Event>, e: SosController.Event)
    ensures Replay(alerts, events + [e]) == Apply(Replay(alerts, events), e)
    decreases |events|
  {
    if events == [] {
      assert ([] + [e])[1..] == [];
    } else {
      assert (events + [e])[0] == events[0];
      assert (events + [e])[1..] == events[1..] + [e];
      ReplaySnoc(Apply(alerts, events[0]), events[1..], e);
    }
  }

  /** However many broadcasts came before, the latest `sosAlert` heads the
      list. */
  lemma LatestAlertFirst(alerts: seq<LiveAlert>, events: seq<SosController.Event>,
                         id: Id, lat: real, lng: real, message: string, createdAt: int)
    ensures var r := Replay(alerts, events + [SosController.SosAlert(id, lat, lng, message, createdAt)]);
      |r| > 0 && r[0] == FromBroadcast(id, lat, lng, message, createdAt)
  {
    ReplaySnoc(alerts, events, SosController.SosAlert(id, lat, lng, message, createdAt));
  }

  /** The payload of `ackSos`. */
  datatype Ack = Ack(sosId: Id, volunteerId: string)

  /** What `useSocket` gives back: the context value, or the thrown error. */
  datatype Hook<T> = Value(value: T) | Thrown(message: string)

  datatype ContextValue = ContextValue(connected: bool, sosAlerts: seq<LiveAlert>)

  /** `useSocket`: outside a provider (`None`) it throws. */
  function UseSocket(context: Option<ContextValue>): (r: Hook<ContextValue>)
    ensures context.None? <==> r == Thrown("useSocket must be used within a SocketProvider")
    ensures context.Some? ==> r == Value(context.value)
  {
    match context
    case None => Thrown("useSocket must be used within a SocketProvider")
    case Some(v) => Value(v)
  }

  class SocketProviderState {
    /** The `socket` state is set (the effect has run). */
    var connected: bool
    var sosAlerts: seq<LiveAlert>
    /** Every `ackSos` emitted, oldest first. */
    var emitted: seq<Ack>

    constructor ()
      ensures !connected && sosAlerts == [] && emitted == []
    {
      connected := false;
      sosAlerts := [];
      emitted := [];
    }

    method Connect()
      modifies this
      ensures connected && sosAlerts == old(sosAlerts) && emitted == old(emitted)
    {
      connected := true;
    }

    /** A broadcast arriving. */
    method Receive(e: SosController.Event)
      modifies this
      ensures sosAlerts == Apply(old(sosAlerts), e)
      ensures connected == old(connected) && emitted == old(emitted)
    {
      sosAlerts := Apply(sosAlerts, e);
    }

    /** `acknowledgeSos`: emits `{sosId, volunteerId}` only when a socket
        exists; otherwise nothing happens. The list is not touched. */
    method AcknowledgeSos(sosId: Id, volunteerId: string)
      modifies this
      ensures emitted == old(emitted) + (if old(connected) then [Ack(sosId, volunteerId)] else [])
      ensures connected == old(connected) && sosAlerts == old(sosAlerts)
    {
      if connected {
        emitted := emitted + [Ack(sosId, volunteerId)];
      }
    }

    function Context(): ContextValue
      reads this
    {
      ContextValue(connected, sosAlerts)
    }
  }
}
