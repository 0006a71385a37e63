# Health-check request pipeline

A Dafny model of the request-serving core of the `health` Go package: the
health-check HTTP handler, the authorization result it reads from the request
context, the mapping from availability status to HTTP status code, the headers
that keep intermediaries from caching a health response, the composition of the
handler with middleware, and the forwarding of the periodic-check lifecycle to
the checker.

Modules, one per concern:

- `Common` (`common.dfy`): `Option`, `Result` and Go bytes.
- `AuthContext` (`context.dfy`, for `context.go`): a request context as an
  immutable chain of `context.WithValue` entries, newest first. Keys are a tagged
  datatype because Go compares context keys by dynamic type and value, so the
  private `ctxKey` and a plain string with the same text are different keys.
  `getAuthResult` and `withAuthResult` are functions; the lemmas relate
  `ctx.Value` lookup to the list of entries.
- `Http` (`http.dfy`): the response writer the handler writes to. It is a class
  with a header map, an optional status, the header map as committed when the
  status was written, a body, and a ghost log of every call made on it. `Run`
  replays a sequence of calls, so what a sequence of writes produces can be
  stated as a function.
- `HealthHandler` (`handler.dfy`, for `handler.go`): `ServeHTTP` and
  `disableResponseCache` are methods that update the writer step by step in the
  source's order. `newHandler` is a method with the source's loop. The checker
  is a class whose methods log the calls they receive. `mapHTTPStatus` and the
  detail decision are functions.

Three behaviours of the code are easy to misread, and the model states them
as written:

- `newHandler` makes the LAST middleware in the list the outermost layer
  (handler.go:53-55), so it sees a request first. `LastMiddlewareOutermost`
  proves this.
- `StartPeriodicChecks` and `StopPeriodicChecks` type-assert the handler to the
  bare `*healthCheckHandler` (handler.go:70, handler.go:80). A handler wrapped by
  any middleware makes them panic; they do not reach through the layers. The
  model makes "the handler is bare" a precondition. `LastMiddlewareOutermost`
  shows that a wrapped handler is never bare.
- A successful response does not carry the JSON Content-Type on the wire: see
  Findings.

## Model

| member | source | states |
|---|---|---|
| `AuthContext.GetAuthResult` | context.go:9-15 | present only when the value under ctxAuthSuccessKey is a bool, and then equal to it; any other value, or none, reads as absent; it never fails |
| `AuthContext.WithAuthResult` | context.go:17-19 | the derived context has the original as its unchanged parent, adds exactly one entry under ctxAuthSuccessKey, and reads back the value written (round trip) |
| `AuthContext.LookupAbsent` | context.go:10 | the model's lookup is None exactly when no entry of the context is under the key; Go's nil from `ctx.Value(key)` is that None or an entry holding nil (Some(NilValue)), and both read as absent in getAuthResult |
| `AuthContext.LookupFindsNewest` | context.go:10 | `ctx.Value(key)` returns the value of the newest entry under the key |
| `AuthContext.AuthResultFromEntries` | context.go:9-15 | with no entry under ctxAuthSuccessKey the result is absent; otherwise only the newest such entry decides, and a non-bool there reads as absent |
| `AuthContext.NonBoolReadsAbsent` | context.go:10-12 | a non-bool value under the key reads as absent |
| `AuthContext.LastWriteWins` | context.go:9-19 | after two writes the second value is read |
| `AuthContext.OtherKeysKeepAuthResult` | context.go:5-10 | adding any number of entries under other keys leaves the auth result unchanged |
| `AuthContext.PlainStringKeyIsDistinct` | context.go:5-7 | a plain string key with the same text as ctxAuthSuccessKey is a different key and does not change the auth result |
| `HealthHandler.MapHttpStatus` | handler.go:59-64 | 503 exactly for down and unknown, 200 exactly for up, and no other code |
| `HealthHandler.IncludeDetails` | handler.go:23-27 | details are withheld exactly when the auth result is present and false; absent gives true |
| `HealthHandler.DetailsWithheldExactlyOnDenial` | handler.go:23-27 | read through the context: withheld exactly when the newest value under the auth key is the bool false; a context without that key shows details |
| `HealthHandler.NoCache` | handler.go:42-49 | Cache-Control and Pragma are no-cache, Expires is -1, the key set grows by exactly those three, every other header keeps its value |
| `HealthHandler.NoCacheIdempotent` | handler.go:42-49 | disabling the cache twice equals doing it once |
| `HealthHandler.CacheWritesSetNoCache` | handler.go:46-48 | the three Set calls change the header map as NoCache says and leave status, committed headers and body unchanged |
| `HealthHandler.DisableResponseCache` | handler.go:42-49 | the writer's header map becomes NoCache of the old map, nothing else changes, and exactly the three Set calls are logged in order |
| `HealthHandler.MarshalFailureResponse` | handler.go:30-34 | a marshal error gives status 500 and the error text as body; the header map is unchanged, so no cache header is set, and the checker's status is not mapped |
| `HealthHandler.MarshalSuccessResponse` | handler.go:36-39 | on success the status is mapHTTPStatus of the checker's status and the body is the marshalled bytes; the headers committed with the status are the cache-disabled ones; Content-Type enters the map only after that |
| `HealthHandler.SuccessTail` | handler.go:37-39 | WriteHeader, then Set Content-Type, then Write on a writer without status: status and committed headers come from the first call, the body from the last |
| `HealthHandler.ContentTypeNotSent` | handler.go:37-38 | as written, the JSON Content-Type is in the header map afterwards but not among the headers committed with the status |
| `HealthHandler.CorrectedReplySendsContentType` | handler.go:36-39 | with Content-Type set before WriteHeader, the committed headers hold the three cache headers and the JSON content type, with the mapped status and the marshalled body |
| `HealthHandler.HealthCheckHandler.ServeHTTP` | handler.go:22-40 | Check is called exactly once, with the request's context and the decided detail flag; the writer receives exactly the calls of Reply for that result, in order, and ends in the state Run gives; the checker's lifecycle is untouched |
| `HealthHandler.NewHandler` | handler.go:51-57 | the loop's result is m_n(...m_1(bare)...); an empty list gives the bare handler |
| `HealthHandler.NestAppend` | handler.go:51-57 | composing with a list split in two is composing with the first part, then with the second |
| `HealthHandler.LastMiddlewareOutermost` | handler.go:51-57 | for wrapping middlewares the layers, outermost first, are the list reversed; the bare handler stays at the centre; the result is bare only for the empty list |
| `HealthHandler.StartPeriodicChecks` | handler.go:69-72 | on the bare handler, exactly one Start is forwarded to its checker and no Check call is made |
| `HealthHandler.StopPeriodicChecks` | handler.go:79-82 | on the bare handler, exactly one Stop is forwarded to its checker and no Check call is made |
| `HealthHandler.Checker.StartPeriodicChecks` | handler.go:16 | the lifecycle log grows by exactly one Start and the Check log stays as it was |
| `HealthHandler.Checker.StopPeriodicChecks` | handler.go:17 | the lifecycle log grows by exactly one Stop and the Check log stays as it was |
| `HealthHandler.Checker.Check` | handler.go:18 | logs one call with its arguments and its result, and touches nothing else |
| `Http.Apply` | handler.go:37-39 | the writer semantics the handler relies on: the first WriteHeader, or a Write before any, fixes the status (200 for a Write) and commits the header map as it is then; later status writes change neither; a header Set changes only the map, never the committed headers; a Write appends to the body, and no other call changes it |
| `Http.ResponseWriter.Set` | handler.go:38 | the writer's state becomes `Apply` of a header Set and the call is appended to the trace |
| `Http.ResponseWriter.WriteHeader` | handler.go:37 | the writer's state becomes `Apply` of a status write and the call is appended to the trace |
| `Http.ResponseWriter.Write` | handler.go:39 | the writer's state becomes `Apply` of a body write and the call is appended to the trace |
| `Http.ErrorResponse` | handler.go:32 | http.Error on a writer without status sets the status, commits the unchanged header map and appends the text to the body |
| `Http.Error` | handler.go:32 | the writer ends in the state the two http.Error calls give, and both are logged |

## Findings

| source | as written | input that shows it | evidently intended | confidence | as-written member | corrected member |
|---|---|---|---|---|---|---|
| handler.go:37-38 | `w.Header().Set("Content-Type", ...)` comes after `w.WriteHeader(...)`. net/http commits the header map when the status is written, so the JSON content type is never sent. | A fresh response writer and any checker result whose marshalling succeeds. | Set Content-Type before WriteHeader, so every successful response carries `application/json; charset=utf-8`. | high (from net/http's documented ResponseWriter contract; not executed) | `HealthHandler.ContentTypeNotSent` | `HealthHandler.CorrectedReplySendsContentType` |

`ServeHTTP` keeps the source's order. `ReplyCorrected` is the corrected call
sequence, and `CorrectedReplySendsContentType` proves its property.

## Left out

- The checker implementation: periodic scheduling, aggregation and caching. `Checker` records calls. The result of `Check` is whatever its `evaluate` function gives, and no contract constrains it beyond being logged.
- JSON encoding: `ServeHTTP` takes the encoder as a parameter `marshal` that may fail.
- The transport, request bodies, context cancellation and deadlines, and concurrency between requests and the lifecycle calls.
- http.Error's extra headers (text/plain Content-Type, X-Content-Type-Options, removal of Content-Length) and its trailing newline. The model keeps only its status and its text.
- 1xx informational status codes, which net/http does not treat as fixing the status; the handler writes only 200, 500 and 503.
- net/http's content sniffing when no Content-Type was committed, header-key canonicalisation, and multi-valued headers. A header value is one string.
- Go's runtime panic on a failed type assertion: `StartPeriodicChecks` and `StopPeriodicChecks` require the bare handler instead.
- The behaviour of middleware beyond wrapping: middleware are arbitrary functions on handlers. The layer-order lemma assumes each adds one named layer.
- Availability status as a three-valued enum (up, down, unknown). Its Go declaration is not part of this model; the code maps any value other than down and unknown to 200.
- Other derived contexts (cancel, deadline) that pass `Value` through to their parent.
