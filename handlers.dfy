/** The four request handlers: `all`, `status`, `search` and `notFound`.
    Each handler is a method that drives the response writer, the database
    handle and the audit sink in the order the source does; each is proved
    to leave exactly the state its specification function describes, and
    the properties of the handler are stated on those functions. */
module Handlers {
  import opened Base
  import opened Records
  import opened Http
  import opened Audit
  import opened Backend
  import opened Sanitizer
  import Decimal

  /** How a handler ends: by returning, by `log.Fatalf` (which ends the
      process, with the logged text), or by a panic. */
  datatype End = Returned | Exited(log: string) | Panicked

  /** Everything one handler invocation does: the response it leaves in the
      writer, the store calls it makes, the audit event it delivers. */
  datatype Outcome = Outcome(response: Exchange, calls: seq<Call>, audit: Option<AuditEvent>, end: End)

  /** The audit discipline every handler keeps: an event reaches the sink
      exactly when the handler returns normally, and that event carries the
      request's method, source and URL and the status line of the status
      that was sent. */
  predicate AuditsStatus(o: Outcome, req: Request) {
    && (o.audit.Some? <==> o.end.Returned?)
    && (o.audit.Some? ==> o.response.status.Some? && o.audit.value == EventOf(StatusLine(o.response.status.value), req))
  }

  /** The status lines the handlers send, spelled as the source spells them. */
  lemma StatusLines()
    ensures StatusLine(StatusOK) == "200 OK"
    ensures StatusLine(StatusBadRequest) == "400 Bad Request"
    ensures StatusLine(StatusNotFound) == "404 Not Found"
    ensures StatusLine(StatusMethodNotAllowed) == "405 Method Not Allowed"
  {
    Decimal.FormatThreeDigits(200);
    Decimal.FormatThreeDigits(400);
    Decimal.FormatThreeDigits(404);
    Decimal.FormatThreeDigits(405);
  }

  /** The last step of a handler, `sendToLoggly(message, request)`: the
      event is delivered if the sink is reachable; otherwise the handler
      panics. */
  function Reported(response: Exchange, calls: seq<Call>, message: string, req: Request, up: bool): Outcome {
    if up then Outcome(response, calls, Some(EventOf(message, req)), Returned)
    else Outcome(response, calls, None, Panicked)
  }

  // ----- notFound -----

  /** `notFound`: 404 for GET, 405 for every other method; the body is the
      status line, and so is the audited message. */
  function NotFoundSpec(req: Request, up: bool): (o: Outcome)
    ensures o.calls == [] && o.response.header == map[]
    ensures o.response.status == Some(if req.httpMethod == "GET" then StatusNotFound else StatusMethodNotAllowed)
    ensures o.response.body == [Text(StatusLine(o.response.status.value))]
    ensures o.end == if up then Returned else Panicked
    ensures AuditsStatus(o, req)
  {
    StatusLines();
    var code := if req.httpMethod == "GET" then StatusNotFound else StatusMethodNotAllowed;
    var message := if req.httpMethod == "GET" then "404 Not Found" else "405 Method Not Allowed";
    Reported(Exchange(map[], Some(code), [Text(message)]), [], message, req, up)
  }

  method NotFound(w: ResponseWriter, sink: AuditSink, req: Request) returns (end: End)
    requires w.State() == Untouched
    modifies w, sink
    ensures w.State() == NotFoundSpec(req, sink.reachable).response
    ensures sink.delivered == old(sink.delivered) + FormsOf(NotFoundSpec(req, sink.reachable).audit)
    ensures end == NotFoundSpec(req, sink.reachable).end
  {
    var message: string;
    if req.httpMethod == "GET" {
      message := "404 Not Found";
      w.WriteHeader(StatusNotFound);
    } else {
      message := "405 Method Not Allowed";
      w.WriteHeader(StatusMethodNotAllowed);
    }
    w.Write(Text(message));
    var ok := SendToLoggly(sink, message, req);
    end := if ok then Returned else Panicked;
  }

  // ----- the part `all` and `search` share -----

  /** What `all` and `search` do once the store has replied: status 200 and
      the JSON header are already written; a failed call or an item that
      does not unmarshal ends the process before anything else is written;
      otherwise the collected slice is written and `200 OK` is reported. */
  function Fetched(reply: Reply, calls: seq<Call>, failure: string, req: Request, up: bool): (o: Outcome)
    ensures o.response.header == JsonHeader && o.response.status == Some(StatusOK) && o.calls == calls
    ensures AuditsStatus(o, req)
    ensures o.end.Exited? <==> reply.Failed? || Collect(reply.items).Stopped?
    ensures reply.Failed? ==> o.end == Exited(failure + reply.error) && o.response.body == []
    ensures reply.Items? && Collect(reply.items).Stopped? ==>
      o.end == Exited("Got error unmarshalling: " + Collect(reply.items).error) && o.response.body == []
    ensures reply.Items? && Collect(reply.items).Collected? ==>
      o.response.body == [RecordsJson(Collect(reply.items).slice)] && o.end == (if up then Returned else Panicked)
  {
    StatusLines();
    var started := Exchange(JsonHeader, Some(StatusOK), []);
    match reply
    case Failed(e) => Outcome(started, calls, None, Exited(failure + e))
    case Items(items) =>
      match Collect(items)
      case Stopped(e) => Outcome(started, calls, None, Exited("Got error unmarshalling: " + e))
      case Collected(s) => Reported(started.(body := [RecordsJson(s)]), calls, "200 OK", req, up)
  }

  // ----- all -----

  /** `all`: one scan of the table; every record returned, in scan order. */
  function AllSpec(req: Request, store: Store, up: bool): (o: Outcome)
    ensures o.calls == [ScanCall(TableName)]
    ensures o.response.header == JsonHeader && o.response.status == Some(StatusOK)
    ensures AuditsStatus(o, req)
    ensures store.scan.Failed? ==> o.end == Exited("Query API call failed: " + store.scan.error)
  {
    Fetched(store.scan, [ScanCall(TableName)], "Query API call failed: ", req, up)
  }

  method All(w: ResponseWriter, sink: AuditSink, db: Database, req: Request) returns (end: End)
    requires w.State() == Untouched
    modifies w, sink, db
    ensures w.State() == AllSpec(req, db.store, sink.reachable).response
    ensures db.calls == old(db.calls) + AllSpec(req, db.store, sink.reachable).calls
    ensures sink.delivered == old(sink.delivered) + FormsOf(AllSpec(req, db.store, sink.reachable).audit)
    ensures end == AllSpec(req, db.store, sink.reachable).end
  {
    w.SetHeader("Content-Type", "application/json");
    w.WriteHeader(StatusOK);
    var result := db.Scan(TableName);
    if result.Failed? {
      return Exited("Query API call failed: " + result.error);
    }
    var collected := CollectItems(result.items);
    if collected.Stopped? {
      return Exited("Got error unmarshalling: " + collected.error);
    }
    w.Write(RecordsJson(collected.slice));
    var ok := SendToLoggly(sink, "200 OK", req);
    end := if ok then Returned else Panicked;
  }

  /** When the scan succeeds and every item unmarshals, `all` writes one
      record per item, in scan order, and reports `200 OK`; an empty table
      gives a nil slice (JSON `null`). */
  lemma AllServesEveryRecord(req: Request, store: Store, up: bool)
    requires store.scan.Items?
    requires forall i :: 0 <= i < |store.scan.items| ==> store.scan.items[i].Decoded?
    ensures var o := AllSpec(req, store, up);
      && o.end == (if up then Returned else Panicked)
      && (up ==> o.audit == Some(EventOf("200 OK", req)))
      && o.response.body == [RecordsJson(Collect(store.scan.items).slice)]
    ensures var s := Collect(store.scan.items).slice;
      && |s.Elems()| == |store.scan.items|
      && (forall i :: 0 <= i < |s.Elems()| ==> s.Elems()[i] == store.scan.items[i].record)
      && (s.Nil? <==> store.scan.items == [])
  {
    CollectAllDecoded(store.scan.items);
    StatusLines();
  }

  // ----- status -----

  /** The status document: exactly the keys `recordCount` and `table`; the
      count in base 10 (so it parses back to the count) and the table name. */
  function StatusFields(itemCount: Int64): (m: map<string, string>)
    ensures m.Keys == {"recordCount", "table"}
    ensures Decimal.ParseInt(m["recordCount"]) == Some(itemCount as int)
    ensures Decimal.IsCanonical(m["recordCount"])
    ensures m["table"] == "Kfeng2_MC_Servers"
  {
    Decimal.ParseFormatInt(itemCount);
    map["recordCount" := Decimal.FormatInt(itemCount), "table" := TableName]
  }

  /** `status`: one `DescribeTable` call, never a scan. */
  function StatusSpec(req: Request, store: Store, up: bool): (o: Outcome)
    ensures o.calls == [DescribeCall(TableName)]
    ensures o.response.header == JsonHeader && o.response.status == Some(StatusOK)
    ensures AuditsStatus(o, req)
    ensures store.describe.DescribeFailed? ==>
      o.end == Exited("Failed to communicate with database: " + store.describe.error) && o.response.body == []
    ensures store.describe == Described(None) ==> o.end == Panicked && o.response.body == []
    ensures store.describe.Described? && store.describe.itemCount.Some? ==>
      && o.response.body == [ObjectJson(StatusFields(store.describe.itemCount.value))]
      && o.end == (if up then Returned else Panicked)
  {
    StatusLines();
    var started := Exchange(JsonHeader, Some(StatusOK), []);
    var calls := [DescribeCall(TableName)];
    match store.describe
    case DescribeFailed(e) => Outcome(started, calls, None, Exited("Failed to communicate with database: " + e))
    case Described(count) =>
      if count.None? then Outcome(started, calls, None, Panicked)
      else Reported(started.(body := [ObjectJson(StatusFields(count.value))]), calls, "200 OK", req, up)
  }

  method Status(w: ResponseWriter, sink: AuditSink, db: Database, req: Request) returns (end: End)
    requires w.State() == Untouched
    modifies w, sink, db
    ensures w.State() == StatusSpec(req, db.store, sink.reachable).response
    ensures db.calls == old(db.calls) + StatusSpec(req, db.store, sink.reachable).calls
    ensures sink.delivered == old(sink.delivered) + FormsOf(StatusSpec(req, db.store, sink.reachable).audit)
    ensures end == StatusSpec(req, db.store, sink.reachable).end
  {
    w.SetHeader("Content-Type", "application/json");
    w.WriteHeader(StatusOK);
    var description := db.DescribeTable(TableName);
    if description.DescribeFailed? {
      return Exited("Failed to communicate with database: " + description.error);
    }
    if description.itemCount.None? {
      // dereferencing the missing count
      return Panicked;
    }
    var number := description.itemCount.value;
    var response: map<string, string> := map[];
    response := response["recordCount" := Decimal.FormatInt(number)];
    response := response["table" := TableName];
    w.Write(ObjectJson(response));
    var ok := SendToLoggly(sink, "200 OK", req);
    end := if ok then Returned else Panicked;
  }

  // ----- search -----

  /** The number of `Hostname` values the search handler accepts: one. */
  predicate OneHostname(query: map<string, seq<string>>) {
    "Hostname" in query && |query["Hostname"]| == 1
  }

  /** `search`: 400 with the literal body `400 Bad Request` and no store call
      unless `Hostname` has exactly one value; otherwise 200 and one query,
      `Hostname` equal to the sanitised value. */
  function SearchSpec(req: Request, store: Store, up: bool): (o: Outcome)
    ensures o.response.header == JsonHeader
    ensures o.response.status == Some(if OneHostname(req.query) then StatusOK else StatusBadRequest)
    ensures AuditsStatus(o, req)
    ensures !OneHostname(req.query) ==>
      && o.calls == []
      && o.response.body == [Text(StatusLine(StatusBadRequest))]
      && o.end == (if up then Returned else Panicked)
    ensures OneHostname(req.query) ==>
      o.calls == [QueryCall(HostnameQuery(Sanitize(req.query["Hostname"][0])))]
  {
    StatusLines();
    if "Hostname" !in req.query || |req.query["Hostname"]| == 0 || |req.query["Hostname"]| > 1 then
      Reported(Exchange(JsonHeader, Some(StatusBadRequest), [Text("400 Bad Request")]), [], "400 Bad Request", req, up)
    else
      var input := HostnameQuery(Sanitize(req.query["Hostname"][0]));
      Fetched(store.query(input), [QueryCall(input)], "Got error calling GetItem: ", req, up)
  }

  method Search(w: ResponseWriter, sink: AuditSink, db: Database, req: Request) returns (end: End)
    requires w.State() == Untouched
    modifies w, sink, db
    ensures w.State() == SearchSpec(req, db.store, sink.reachable).response
    ensures db.calls == old(db.calls) + SearchSpec(req, db.store, sink.reachable).calls
    ensures sink.delivered == old(sink.delivered) + FormsOf(SearchSpec(req, db.store, sink.reachable).audit)
    ensures end == SearchSpec(req, db.store, sink.reachable).end
  {
    w.SetHeader("Content-Type", "application/json");
    var message: string;
    if "Hostname" !in req.query || |req.query["Hostname"]| == 0 || |req.query["Hostname"]| > 1 {
      message := "400 Bad Request";
      w.WriteHeader(StatusBadRequest);
      w.Write(Text(message));
    } else {
      w.WriteHeader(StatusOK);
      message := "200 OK";
      var text := req.query["Hostname"][0];
      text := RemoveAll(text, ' ');
      text := RemoveAll(text, ';');
      text := RemoveAll(text, '=');
      var result := db.Query(HostnameQuery(text));
      if result.Failed? {
        return Exited("Got error calling GetItem: " + result.error);
      }
      var collected := CollectItems(result.items);
      if collected.Stopped? {
        return Exited("Got error unmarshalling: " + collected.error);
      }
      w.Write(RecordsJson(collected.slice));
    }
    var ok := SendToLoggly(sink, message, req);
    end := if ok then Returned else Panicked;
  }

  /** With exactly one `Hostname` value and a query whose items all
      unmarshal, `search` writes one record per item, in the store's order,
      and reports `200 OK`; no match gives a nil slice (JSON `null`). */
  lemma SearchServesEveryMatch(req: Request, store: Store, up: bool)
    requires OneHostname(req.query)
    requires store.query(HostnameQuery(Sanitize(req.query["Hostname"][0]))).Items?
    requires var items := store.query(HostnameQuery(Sanitize(req.query["Hostname"][0]))).items;
      forall i :: 0 <= i < |items| ==> items[i].Decoded?
    ensures var items := store.query(HostnameQuery(Sanitize(req.query["Hostname"][0]))).items;
      var o := SearchSpec(req, store, up);
      && o.end == (if up then Returned else Panicked)
      && (up ==> o.audit == Some(EventOf("200 OK", req)))
      && o.response.body == [RecordsJson(Collect(items).slice)]
      && |Collect(items).slice.Elems()| == |items|
      && (forall i :: 0 <= i < |items| ==> Collect(items).slice.Elems()[i] == items[i].record)
      && (Collect(items).slice.Nil? <==> items == [])
  {
    CollectAllDecoded(store.query(HostnameQuery(Sanitize(req.query["Hostname"][0]))).items);
    StatusLines();
  }

  /** With exactly one `Hostname` value, the one query `search` sends selects
      exactly the records whose hostname is the sanitised value. */
  lemma SearchSelectsSanitisedHostname(req: Request, store: Store, up: bool, rec: ServerStatus)
    requires OneHostname(req.query)
    ensures |SearchSpec(req, store, up).calls| == 1 && SearchSpec(req, store, up).calls[0].QueryCall?
    ensures Selects(SearchSpec(req, store, up).calls[0].input, rec) <==> rec.hostname == Sanitize(req.query["Hostname"][0])
  {
    HostnameQuerySelects(Sanitize(req.query["Hostname"][0]), rec);
  }

  /** `Hostname=f o;o=` is looked up as `foo`. */
  lemma SearchExample(req: Request, store: Store, up: bool)
    requires req.query == map["Hostname" := ["f o;o="]]
    ensures SearchSpec(req, store, up).calls == [QueryCall(HostnameQuery("foo"))]
  {
    SanitizeExample();
  }
}
