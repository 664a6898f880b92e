/** The route table `main` registers, and the dispatch of a request to the
    handler it selects. */
module Router {
  import opened Base
  import opened Http
  import opened Audit
  import opened Backend
  import opened Handlers

  datatype Handler = AllHandler | StatusHandler | SearchHandler

  /** A registered route: an exact path and the one method it accepts. */
  datatype Route = Route(path: string, httpMethod: string, handler: Handler)

  /** The routes in the order `main` registers them. */
  const Routes: seq<Route> := [
    Route("/kfeng2/all", "GET", AllHandler),
    Route("/kfeng2/status", "GET", StatusHandler),
    Route("/kfeng2/search", "GET", SearchHandler)
  ]

  /** The router's verdict. `MethodMismatch` is a registered path requested
      with another method: the router library answers it itself, without
      reaching any handler of this file. `Unmatched` goes to `notFound`. */
  datatype Match = Matched(handler: Handler) | MethodMismatch | Unmatched

  /** Tries the routes in order: the first route whose path and method both
      equal the request's wins. */
  function MatchRoutes(routes: seq<Route>, httpMethod: string, path: string): (m: Match)
    ensures m.Matched? ==> exists i :: 0 <= i < |routes| && routes[i] == Route(path, httpMethod, m.handler)
    ensures (exists i :: 0 <= i < |routes| && routes[i].path == path && routes[i].httpMethod == httpMethod) ==> m.Matched?
    ensures m.Unmatched? <==> forall i :: 0 <= i < |routes| ==> routes[i].path != path
  {
    if routes == [] then Unmatched
    else if routes[0].path == path && routes[0].httpMethod == httpMethod then Matched(routes[0].handler)
    else
      var rest := MatchRoutes(routes[1..], httpMethod, path);
      if rest.Unmatched? && routes[0].path == path then MethodMismatch else rest
  }

  /** The dispatch of `main`'s router: GET on one of the three paths reaches
      its handler; any other method on those paths is the library's
      mismatch; every other path reaches `notFound`. */
  function Dispatch(httpMethod: string, path: string): (m: Match)
    ensures m == Matched(AllHandler) <==> httpMethod == "GET" && path == "/kfeng2/all"
    ensures m == Matched(StatusHandler) <==> httpMethod == "GET" && path == "/kfeng2/status"
    ensures m == Matched(SearchHandler) <==> httpMethod == "GET" && path == "/kfeng2/search"
    ensures m.Unmatched? <==> path !in {"/kfeng2/all", "/kfeng2/status", "/kfeng2/search"}
  {
    var m := MatchRoutes(Routes, httpMethod, path);
    assert Routes[0].path == "/kfeng2/all" && Routes[1].path == "/kfeng2/status" && Routes[2].path == "/kfeng2/search";
    m
  }

  /** What serving one request does; `None` where the router library answers
      a method mismatch itself. */
  function ServeSpec(req: Request, store: Store, up: bool): (o: Option<Outcome>)
    ensures o.None? <==> Dispatch(req.httpMethod, req.path).MethodMismatch?
    ensures o.Some? ==> AuditsStatus(o.value, req)
    ensures Dispatch(req.httpMethod, req.path).Unmatched? ==> o == Some(NotFoundSpec(req, up))
  {
    match Dispatch(req.httpMethod, req.path)
    case Matched(AllHandler) => Some(AllSpec(req, store, up))
    case Matched(StatusHandler) => Some(StatusSpec(req, store, up))
    case Matched(SearchHandler) => Some(SearchSpec(req, store, up))
    case MethodMismatch => None
    case Unmatched => Some(NotFoundSpec(req, up))
  }

  /** Every request that reaches a handler of this file and completes
      delivers exactly one audit form, and that form reads back as the
      request's method, source and URL with the status line sent. */
  lemma ServeAuditsOnce(req: Request, store: Store, up: bool)
    requires ServeSpec(req, store, up).Some?
    ensures var o := ServeSpec(req, store, up).value;
      && |FormsOf(o.audit)| == (if o.end.Returned? then 1 else 0)
      && (o.end.Returned? ==> DecodeForm(FormsOf(o.audit)[0]) == Some(AuditEvent(req.httpMethod, req.remoteAddr, req.url, StatusLine(o.response.status.value))))
  {
  }

  /** Serves one request with a fresh response writer. */
  method Serve(w: ResponseWriter, sink: AuditSink, db: Database, req: Request) returns (end: Option<End>)
    requires w.State() == Untouched
    modifies w, sink, db
    ensures var o := ServeSpec(req, db.store, sink.reachable);
      if o.None? then
        end.None? && w.State() == Untouched && sink.delivered == old(sink.delivered) && db.calls == old(db.calls)
      else
        && end == Some(o.value.end)
        && w.State() == o.value.response
        && db.calls == old(db.calls) + o.value.calls
        && sink.delivered == old(sink.delivered) + FormsOf(o.value.audit)
  {
    match Dispatch(req.httpMethod, req.path)
    case Matched(AllHandler) =>
      var e := All(w, sink, db, req);
      end := Some(e);
    case Matched(StatusHandler) =>
      var e := Status(w, sink, db, req);
      end := Some(e);
    case Matched(SearchHandler) =>
      var e := Search(w, sink, db, req);
      end := Some(e);
    case MethodMismatch =>
      end := None;
    case Unmatched =>
      var e := NotFound(w, sink, req);
      end := Some(e);
  }
}
