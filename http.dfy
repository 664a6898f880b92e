/** The parts of `net/http` the handlers touch: the request they read and
    the response writer they update step by step (header, status, body). */
module Http {
  import opened Base
  import Records
  import Decimal

  /** An incoming request. `path` and `query` are the parsed URL (the query
      as `url.Values`, a name mapped to its values in order); `url` is the
      URL's own printed form, `request.URL.String()`. */
  datatype Request = Request(
    httpMethod: string,
    path: string,
    query: map<string, seq<string>>,
    url: string,
    remoteAddr: string)

  const StatusOK := 200
  const StatusBadRequest := 400
  const StatusNotFound := 404
  const StatusMethodNotAllowed := 405

  /** `http.StatusText` for the codes the server sends. */
  function StatusText(code: int): string {
    if code == StatusOK then "OK"
    else if code == StatusBadRequest then "Bad Request"
    else if code == StatusNotFound then "Not Found"
    else if code == StatusMethodNotAllowed then "Method Not Allowed"
    else ""
  }

  /** A status line in the form the handlers write and audit: the code in
      decimal, a space, the reason phrase. */
  function StatusLine(code: int): string {
    Decimal.FormatInt(code) + " " + StatusText(code)
  }

  /** One call of `writer.Write`. The JSON payloads stand for the bytes
      `json.Marshal` makes of the value. */
  datatype Payload =
    | Text(text: string)
    | RecordsJson(records: GoSlice<Records.ServerStatus>)
    | ObjectJson(fields: map<string, string>)

  /** What a response writer has been told so far. */
  datatype Exchange = Exchange(header: map<string, string>, status: Option<int>, body: seq<Payload>)

  const Untouched := Exchange(map[], None, [])

  const JsonHeader: map<string, string> := map["Content-Type" := "application/json"]

  /** `http.ResponseWriter`. The status is fixed by the first `WriteHeader`,
      or by the first `Write` (as 200) if that comes first; later
      `WriteHeader` calls are ignored. */
  class ResponseWriter {
    var header: map<string, string>
    var status: Option<int>
    var body: seq<Payload>

    /** The writer `net/http` hands to a handler. */
    constructor ()
      ensures State() == Untouched
    {
      header, status, body := map[], None, [];
    }

    function State(): Exchange
      reads this
    {
      Exchange(header, status, body)
    }

    /** `writer.Header().Set(key, value)`. */
    method SetHeader(key: string, value: string)
      modifies this
      ensures State() == old(State()).(header := old(header)[key := value])
    {
      header := header[key := value];
    }

    /** `writer.WriteHeader(code)`. */
    method WriteHeader(code: int)
      modifies this
      ensures State() == old(State()).(status := if old(status).None? then Some(code) else old(status))
    {
      if status.None? {
        status := Some(code);
      }
    }

    /** `writer.Write(p)`. */
    method Write(p: Payload)
      modifies this
      ensures State() == Exchange(old(header), if old(status).None? then Some(StatusOK) else old(status), old(body) + [p])
    {
      if status.None? {
        status := Some(StatusOK);
      }
      body := body + [p];
    }
  }
}
