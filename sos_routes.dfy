/** The SOS router (backend/routes/sosRoutes.js): which handler answers
    which verb and path under /sos, which of them sit behind the auth
    middleware, and the public open-only listing. */
module SosRoutes {
  import opened Common
  import opened Query
  import opened SosSchema
  import opened SosController

  datatype Verb = Get | Post | Patch | Put | Delete

  /** A path segment of a route pattern: a literal or an `:param`. */
  datatype Segment = Lit(text: string) | Param(name: string)

  datatype Handler = CreateSosHandler | GetAllSosHandler | UpdateStatusHandler | PublicSosHandler

  datatype Route = Route(verb: Verb, pattern: seq<Segment>, auth: bool, handler: Handler)

  /** The routes in registration order; `auth` marks those mounted behind
      the auth middleware. */
  const Routes: seq<Route> := [
    Route(Post, [], false, CreateSosHandler),
    Route(Get, [], true, GetAllSosHandler),
    Route(Patch, [Param("id"), Lit("status")], true, UpdateStatusHandler),
    Route(Get, [Lit("public")], false, PublicSosHandler)
  ]

  /** Express matching of one pattern against the request's path segments:
      a literal must be equal, a parameter takes any non-empty segment. */
  predicate Matches(pattern: seq<Segment>, path: seq<string>) {
    |pattern| == |path|
    && forall k :: 0 <= k < |path| ==>
         match pattern[k]
         case Lit(t) => path[k] == t
         case Param(_) => path[k] != ""
  }

  /** The first route, in registration order, that matches. */
  function Resolve(routes: seq<Route>, verb: Verb, path: seq<string>): (r: Option<Route>)
    ensures r.Some? ==> r.value in routes && r.value.verb == verb && Matches(r.value.pattern, path)
    ensures r.None? ==> forall k :: 0 <= k < |routes| ==> !(routes[k].verb == verb && Matches(routes[k].pattern, path))
  {
    if routes == [] then None
    else if routes[0].verb == verb && Matches(routes[0].pattern, path) then Some(routes[0])
    else
      var r := Resolve(routes[1..], verb, path);
      assert forall k :: 1 <= k < |routes| ==> routes[k] == routes[1..][k - 1];
      r
  }

  /** What the router does before a handler runs. */
  datatype Gate = NoRoute | Unauthorized | Allowed(handler: Handler)

  /** `tokenValid` is the auth middleware's verdict on the request's bearer
      token; its checks are not modelled. */
  function Dispatch(verb: Verb, path: seq<string>, tokenValid: bool): (g: Gate)
    ensures g.NoRoute? <==> forall k :: 0 <= k < |Routes| ==> !(Routes[k].verb == verb && Matches(Routes[k].pattern, path))
    ensures g.Unauthorized? ==> !tokenValid
    ensures g.Allowed? ==> exists r :: r in Routes && r.verb == verb && Matches(r.pattern, path)
                                       && r.handler == g.handler && (r.auth ==> tokenValid)
  {
    match Resolve(Routes, verb, path)
    case None => NoRoute
    case Some(route) => if route.auth && !tokenValid then Unauthorized else Allowed(route.handler)
  }

  /** POST / is public; GET / and PATCH /:id/status need a valid token;
      GET /public is public; nothing answers POST /ack. */
  lemma RouteTable(id: string, tokenValid: bool)
    requires id != ""
    ensures Dispatch(Post, [], tokenValid) == Allowed(CreateSosHandler)
    ensures Dispatch(Get, [], tokenValid) == (if tokenValid then Allowed(GetAllSosHandler) else Unauthorized)
    ensures Dispatch(Patch, [id, "status"], tokenValid) == (if tokenValid then Allowed(UpdateStatusHandler) else Unauthorized)
    ensures Dispatch(Get, ["public"], tokenValid) == Allowed(PublicSosHandler)
    ensures Dispatch(Post, ["ack"], tokenValid) == NoRoute
  {
    assert Resolve(Routes, Post, []) == Some(Routes[0]);
    assert Resolve(Routes, Get, []) == Some(Routes[1]);
    assert Matches(Routes[2].pattern, [id, "status"]);
    assert Resolve(Routes, Patch, [id, "status"]) == Some(Routes[2]);
    assert !Matches(Routes[1].pattern, ["public"]);
    assert Resolve(Routes, Get, ["public"]) == Some(Routes[3]);
    assert !Matches(Routes[0].pattern, ["ack"]);
    assert Resolve(Routes, Post, ["ack"]) == None;
  }

  /** Without a valid token the status update never reaches its handler,
      whatever the id: the store is untouched and the reply is 401. */
  lemma StatusUpdateNeedsToken(path: seq<string>)
    ensures Dispatch(Patch, path, false) != Allowed(UpdateStatusHandler)
  {
  }

  predicate IsOpen(s: Sos) {
    s.status == "open"
  }

  /** GET /public: `find({status: 'open'}).sort({createdAt: -1}).limit(200)`.
      Only open alerts, newest first, at most 200, each one stored, and no
      open alert left out is newer than one returned. Being a function of the
      store, it changes nothing. */
  function PublicSos(store: SosStore): (r: seq<Sos>)
    reads store
    ensures |r| <= 200
    ensures forall k :: 0 <= k < |r| ==> r[k].status == "open"
    ensures SortedDesc(r, CreatedAt)
    ensures forall x :: x in r ==> x in store.records.Values
    ensures var open := Filter(store.Listing(), IsOpen);
      |r| == Min(ListLimit, |open|)
      && forall x, y :: x in multiset(open) - multiset(r) && y in r ==> x.createdAt <= y.createdAt
  {
    var open := Filter(store.Listing(), IsOpen);
    var r := NewestPage(open, ListLimit, CreatedAt);
    assert forall k :: 0 <= k < |r| ==> r[k] in open;
    r
  }
}
