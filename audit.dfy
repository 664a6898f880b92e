/** The audit record `sendToLoggly` builds for every request, and the
    collector it posts that record to. */
module Audit {
  import opened Base
  import opened Http

  /** The four facts reported about a request. */
  datatype AuditEvent = AuditEvent(httpMethod: string, source: string, path: string, message: string)

  /** The event `sendToLoggly(message, request)` reports. */
  function EventOf(message: string, req: Request): AuditEvent {
    AuditEvent(req.httpMethod, req.remoteAddr, req.url, message)
  }

  /** `url.Values`: a form field name mapped to its values. */
  type Form = map<string, seq<string>>

  const FieldNames: set<string> := {"method", "source", "path", "message"}

  /** The form posted for an event: exactly the four fields, one value each. */
  function EncodeForm(e: AuditEvent): (f: Form)
    ensures f.Keys == FieldNames
    ensures forall k :: k in f ==> |f[k]| == 1
    ensures DecodeForm(f) == Some(e)
  {
    map["method" := [e.httpMethod], "source" := [e.source], "path" := [e.path], "message" := [e.message]]
  }

  /** Reads an event back from a form that carries the four fields once each. */
  function DecodeForm(f: Form): Option<AuditEvent> {
    if forall k :: k in FieldNames ==> k in f && |f[k]| == 1 then
      Some(AuditEvent(f["method"][0], f["source"][0], f["path"][0], f["message"][0]))
    else None
  }

  /** The forms an outcome leaves at the collector: one for a delivered
      event, none otherwise. */
  function FormsOf(audit: Option<AuditEvent>): seq<Form> {
    if audit.Some? then [EncodeForm(audit.value)] else []
  }

  /** The external collector. Whether a post reaches it is fixed by the
      network, outside the model: `reachable`. */
  class AuditSink {
    const reachable: bool
    var delivered: seq<Form>

    constructor (reachable: bool)
      ensures this.reachable == reachable && delivered == []
    {
      this.reachable := reachable;
      delivered := [];
    }

    /** `http.PostForm(url, form)`; `ok` is false where Go returns an error. */
    method PostForm(form: Form) returns (ok: bool)
      modifies this
      ensures ok == reachable
      ensures delivered == if ok then old(delivered) + [form] else old(delivered)
    {
      ok := reachable;
      if ok {
        delivered := delivered + [form];
      }
    }
  }

  /** `sendToLoggly`: builds the form for the request and posts it; `ok` is
      false where the source panics. */
  method SendToLoggly(sink: AuditSink, message: string, req: Request) returns (ok: bool)
    modifies sink
    ensures ok == sink.reachable
    ensures sink.delivered == old(sink.delivered) + FormsOf(if ok then Some(EventOf(message, req)) else None)
  {
    var data := EncodeForm(EventOf(message, req));
    ok := sink.PostForm(data);
  }
}
