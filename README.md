# kfeng2-server, modelled in Dafny

A model of the request-decision logic of `kfeng2-server`. This is a small Go HTTP service. It answers
three read-only routes over the DynamoDB table `Kfeng2_MC_Servers`, which holds Minecraft server
records, and sends a fallback answer for every other path. After each request that a handler
completes, it posts an audit record to Loggly.

The model has these parts:

- `base.dfy`: `Option`, Go's `int64` and Go slices. A nil slice (`Nil`) is kept apart from a non-nil
  one (`Made`), because `json.Marshal` writes the first as `null` and the second as an array.
- `sanitize.dfy`: the three `strings.ReplaceAll` calls that clean the `Hostname` value. It also has
  a one-pass reference filter and the properties of the clean-up.
- `decimal.dfy`: `strconv.FormatInt(n, 10)` and a parser that inverts it, proved in both directions.
- `records.dfy`: `ServerStatus` and the collection loop that `all` and `search` share: unmarshal
  each item and `append` it. It is a method with a loop, proved equal to a fold function (`Collect`).
- `http.dfy`: the request, the four status codes, `http.StatusText`, and a `ResponseWriter` class
  that is updated step by step (header, status, body).
- `audit.dfy`: the audit event, the four-field form `sendToLoggly` builds, and the sink as a class.
- `backend.dfy`: the DynamoDB requests (scan, describe, key-condition query) and the replies. A
  `Database` class records every call made. The store's replies are given as data.
- `handlers.dfy`: `all`, `status`, `search` and `notFound`. Each is an imperative method that calls
  the writer, database and sink in the order the source does. Each method is proved to leave exactly
  the state described by a specification function (`AllSpec`, `StatusSpec`, `SearchSpec`,
  `NotFoundSpec`). The handler properties are stated and proved on those functions.
- `router.dfy`: the route table from `main`, the dispatch, and `Serve`, which runs one request.

How a handler can end is a value of type `End`:

- `Returned`: the handler finished normally.
- `Exited(log)`: `log.Fatalf` ended the process, with the text that was logged.
- `Panicked`: the audit post failed, or the table description had no item count.

`AuditsStatus` is the audit rule every handler keeps. An audit event reaches the sink exactly when
the handler returns normally. That event carries the request's method, remote address and URL
string, plus the status line (`"200 OK"`, `"404 Not Found"`, ...) of the status that was sent.

Some behaviours of the code are easy to miss; the model keeps them:

- An empty scan or query result is a nil slice, so the body is JSON `null`, not `[]`.
- A non-GET request to one of the three registered paths is not routed to `notFound`. The router
  library answers it with its own 405, and no audit event is sent (`MethodMismatch`). The comment
  at kfeng2-server.go:185 says `notFound` "includes the wrong methods". That held only for
  gorilla/mux releases before mux answered method mismatches itself; the model follows the router
  as it behaves with its method-mismatch handling.
- `search` sets `Content-Type: application/json` even when its body is the plain text
  `400 Bad Request`.
- `all`, `status` and `search` write status 200 before calling the store. A store failure therefore
  leaves status 200 with no body and no audit event.

## Model

| member | source | states |
|---|---|---|
| `Sanitizer.RemoveAll` | kfeng2-server.go:137-139 | one `strings.ReplaceAll(s, c, "")`: the result is no longer than the input, and a character occurs in it exactly when it occurs in the input and is not `c` |
| `Sanitizer.Sanitize` | kfeng2-server.go:136-139 | the sanitised hostname has no space, `;` or `=`; it contains every other character of the input; it is no longer than the input |
| `Sanitizer.SanitizeIsKept` | kfeng2-server.go:136-139 | the three chained deletions equal the one-pass filter "not space, `;` or `=`", so every other character is kept, in input order |
| `Sanitizer.SanitizeIsSubsequence` | kfeng2-server.go:136-139 | the sanitised value is a subsequence of the raw value |
| `Sanitizer.SanitizeCounts` | kfeng2-server.go:136-139 | each kept character occurs as often in the output as in the input; each stripped character occurs zero times |
| `Sanitizer.SanitizeLength` | kfeng2-server.go:136-139 | the output is shorter than the input by exactly the number of stripped characters |
| `Sanitizer.SanitizeFixpoint` | kfeng2-server.go:137-139 | sanitising leaves a value unchanged if and only if it has no space, `;` or `=` |
| `Sanitizer.SanitizeIdempotent` | kfeng2-server.go:137-139 | sanitising an already-sanitised value returns it unchanged |
| `Sanitizer.SanitizeExample` | kfeng2-server.go:136-139 | `f o;o=` becomes `foo` |
| `Decimal.FormatNat` | kfeng2-server.go:103 | the base-10 digits of a natural number: at least one digit, and a leading `0` only for zero, which renders as `0` |
| `Decimal.FormatInt` | kfeng2-server.go:103 | `strconv.FormatInt(n, 10)` is canonical: a minus sign exactly for negative numbers, then digits with no leading zero |
| `Decimal.ParseFormatInt` | kfeng2-server.go:103 | parsing the rendering of any integer gives back that integer |
| `Decimal.FormatParseInt` | kfeng2-server.go:103 | every canonical decimal string parses, and rendering the parsed value gives back the same string |
| `Records.CollectItems` | kfeng2-server.go:63-73 | the collection loop of `all` (and of `search`, lines 161-171) returns exactly what `Collect` says of its items |
| `Records.StoppedPersists` | kfeng2-server.go:64-70 | once an item fails to unmarshal, later items cannot change the result |
| `Records.CollectAllDecoded` | kfeng2-server.go:63-73 | when every item unmarshals, the slice holds one record per item in backend order, and it is nil exactly when there are no items |
| `Records.CollectFirstFailure` | kfeng2-server.go:64-70 | when some item fails to unmarshal, the loop stops with the error of the first failing item |
| `Http.ResponseWriter.SetHeader` | kfeng2-server.go:51 | sets one header field and changes nothing else |
| `Http.ResponseWriter.WriteHeader` | kfeng2-server.go:52 | the first status written is kept; the body is untouched |
| `Http.ResponseWriter.Write` | kfeng2-server.go:79 | appends one payload to the body; writing first implies status 200 |
| `Audit.EncodeForm` | kfeng2-server.go:210-215 | the audit form has exactly the fields `method`, `source`, `path` and `message`, one value each, and it reads back as the event |
| `Audit.AuditSink.PostForm` | kfeng2-server.go:217-220 | a post succeeds exactly when the sink is reachable; then the sink has received that form and nothing else |
| `Audit.SendToLoggly` | kfeng2-server.go:202-220 | posts the form of `(request method, remote address, URL string, message)`; it succeeds exactly when the sink is reachable |
| `Backend.HostnameQuery` | kfeng2-server.go:142-154 | the query names table `Kfeng2_MC_Servers` and has one key condition: `Hostname` `EQ` the given key |
| `Backend.HostnameQuerySelects` | kfeng2-server.go:142-154 | under the meaning `Selects` gives key conditions, the search query selects a record if and only if its hostname equals the key |
| `Backend.Database.Scan` | kfeng2-server.go:55-57 | returns the store's scan reply and records one scan of the named table |
| `Backend.Database.DescribeTable` | kfeng2-server.go:91-93 | returns the store's describe reply and records one describe call |
| `Backend.Database.Query` | kfeng2-server.go:155 | returns the store's answer to this input and records one query with that input |
| `Handlers.StatusLines` | kfeng2-server.go:126-133 | the status line built from each code is the literal text the source uses: `200 OK`, `400 Bad Request`, `404 Not Found`, `405 Method Not Allowed` |
| `Handlers.NotFoundSpec` | kfeng2-server.go:184-200 | no store call; status 404 for GET and 405 for any other method; the body is that status line, and so is the audited message; one audit event exactly when the handler returns |
| `Handlers.NotFound` | kfeng2-server.go:184-200 | the step-by-step handler leaves the writer and sink exactly as `NotFoundSpec` says |
| `Handlers.Fetched` | kfeng2-server.go:58-82 | after a scan or query reply: status 200 and JSON header; a failed call or an undecodable item ends the process with its log text and no body; otherwise the collected slice is the body and `200 OK` is audited |
| `Handlers.AllSpec` | kfeng2-server.go:50-83 | exactly one scan of `Kfeng2_MC_Servers`; status 200 on every path; a scan error ends the process; the audit rule holds |
| `Handlers.All` | kfeng2-server.go:50-83 | the step-by-step handler leaves the writer, database log and sink exactly as `AllSpec` says |
| `Handlers.AllServesEveryRecord` | kfeng2-server.go:62-82 | on a successful scan, the body has one record per item in scan order (nil for an empty table) and `200 OK` is audited |
| `Handlers.StatusFields` | kfeng2-server.go:101-104 | the status document has exactly the keys `recordCount` and `table`; `recordCount` is the canonical decimal form of the count and parses back to it; `table` is `Kfeng2_MC_Servers` |
| `Handlers.StatusSpec` | kfeng2-server.go:85-117 | exactly one `DescribeTable` call and no scan; status 200; a describe error ends the process; a missing count panics; otherwise the body is the status document and `200 OK` is audited |
| `Handlers.Status` | kfeng2-server.go:85-117 | the step-by-step handler leaves the writer, database log and sink exactly as `StatusSpec` says |
| `Handlers.SearchSpec` | kfeng2-server.go:119-182 | status 400, body `400 Bad Request` and no store call exactly when `Hostname` is missing or does not have exactly one value; otherwise status 200 and one query with `Hostname` `EQ` the sanitised first value; the audited message is the status line sent |
| `Handlers.Search` | kfeng2-server.go:119-182 | the step-by-step handler leaves the writer, database log and sink exactly as `SearchSpec` says |
| `Handlers.SearchServesEveryMatch` | kfeng2-server.go:155-181 | with one `Hostname` value and a successful query, the body has one record per item in store order (nil when nothing matches) and `200 OK` is audited |
| `Handlers.SearchSelectsSanitisedHostname` | kfeng2-server.go:136-155 | with one `Hostname` value, `search` sends exactly one query, and it selects a record if and only if the record's hostname is the sanitised first value |
| `Handlers.SearchExample` | kfeng2-server.go:136-149 | `Hostname=f o;o=` is looked up as `foo` |
| `Router.MatchRoutes` | kfeng2-server.go:42-46 | a match is a registered route with the request's exact path and method; a route whose path and method both match is always found; a request is unmatched exactly when no route has its path |
| `Router.Dispatch` | kfeng2-server.go:42-46 | GET on `/kfeng2/all`, `/kfeng2/status` or `/kfeng2/search` selects that handler, each if and only if; every other path goes to `notFound` |
| `Router.ServeSpec` | kfeng2-server.go:42-46 | every request routed to a handler in this file obeys the audit rule; unmatched paths get `notFound`'s outcome; only a method mismatch is left to the library |
| `Router.ServeAuditsOnce` | kfeng2-server.go:202-215 | a served request that returns normally delivers exactly one audit form, which reads back as the request's method, remote address, URL and the status line sent; other endings deliver none |
| `Router.Serve` | kfeng2-server.go:41-47 | serving one request leaves the writer, database log and sink exactly as `ServeSpec` says; on a method mismatch the router's own 405 is not modelled, so the writer, database log and sink are shown untouched |

## Left out

- The DynamoDB session setup in `init` (lines 24-39) is left out, including its `os.Exit`. The
  `Scan`, `DescribeTable` and `Query` calls and `UnmarshalMap` are foreign code. Their answers are
  inputs: a `Store` value, with each item already decoded or failed.
- Process termination by `log.Fatalf` is only an `End.Exited` with the logged text. The standard
  logger's timestamp prefix is not modelled.
- Whether a panic in a handler ends the process is decided by `net/http`. It is outside the model,
  so the model only records `End.Panicked`.
- `json.Marshal` byte output is left out. A payload stands for the marshalled value. The
  `json.Marshal` error branch of `status` (lines 107-110) cannot be taken for a string map, so it is
  not modelled.
- HTTP transport, `http.ListenAndServe`, header flushing and content-type sniffing for `notFound`'s
  body are left out: they are library I/O.
- The router library's own behaviour is left out: its 405 for a method mismatch, path cleaning and
  redirects, and HEAD handling. Only its exact-path, exact-method table lookup is modelled. On a
  method mismatch the library calls `WriteHeader(405)` on the writer; `Serve` shows the writer
  untouched instead.
- Go strings are byte strings, and after percent-decoding they may hold invalid UTF-8. The model
  treats them as Dafny character strings. Deleting the three ASCII characters the sanitiser strips
  gives the same result either way.
- What a DynamoDB key condition means is decided by DynamoDB. `Backend.Selects` gives a meaning
  only to the one condition the source sends (`Hostname` `EQ` one string). The store's replies are
  not required to agree with it.
- URL parsing and printing are library code. A `Request` carries the parsed path and query and the
  printed URL string as separate given fields.
- The Loggly side is reduced to a reachability flag on the sink. The model leaves out the form
  encoding, the network post, the sink URL from the `Loggly_Token` environment variable (line 27)
  and `response.Body.Close`.
- Concurrency of the HTTP server is left out: handlers share no mutable state in the source.
- The second, standalone status service is not part of this model.
- `All`, `Status`, `Search`, `NotFound` and `Serve` require a writer with nothing written yet. This
  is the writer `net/http` hands to every handler.
