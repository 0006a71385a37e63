/**
 * The request pipeline of handler.go: the health-check handler that turns a
 * request into a status-coded, cache-safe JSON response, the composition of
 * that handler with middleware, and the forwarding of the periodic-check
 * lifecycle to the checker.
 */
module HealthHandler {
  import opened Common
  import opened AuthContext
  import opened Http

  /** availabilityStatus: the overall state a checker reports. */
  datatype AvailabilityStatus = Up | Down | Unknown

  /** aggregatedCheckStatus: the overall status and the per-check details the checker chose to include. */
  datatype AggregatedCheckStatus = AggregatedCheckStatus(status: AvailabilityStatus, details: map<string, AvailabilityStatus>)

  /** An inbound request; the handler looks only at its context. */
  datatype Request = Request(ctx: Context)

  /** json.Marshal applied to a checker result: the encoded bytes, or an error. */
  type Marshaller = AggregatedCheckStatus -> Result<Bytes>

  /** One call of Check, with the arguments it received and the result it gave. */
  datatype CheckCall = CheckCall(ctx: Context, includeDetails: bool, result: AggregatedCheckStatus)

  datatype LifecycleCall = Start | Stop

  /**
   * The checker interface (handler.go:15-19). Its implementation is not part of
   * this model: `evaluate` stands for whatever it computes, and the object keeps
   * a log of the calls it received so that forwarding can be stated.
   */
  class Checker {
    const evaluate: (Context, bool) -> AggregatedCheckStatus
    var checks: seq<CheckCall>
    var lifecycle: seq<LifecycleCall>

    constructor (evaluate: (Context, bool) -> AggregatedCheckStatus)
      ensures this.evaluate == evaluate && checks == [] && lifecycle == []
    {
      this.evaluate := evaluate;
      checks, lifecycle := [], [];
    }

    method Check(ctx: Context, includeDetails: bool) returns (res: AggregatedCheckStatus)
      modifies this
      ensures checks == old(checks) + [CheckCall(ctx, includeDetails, res)]
      ensures lifecycle == old(lifecycle)
    {
      res := evaluate(ctx, includeDetails);
      checks := checks + [CheckCall(ctx, includeDetails, res)];
    }

    method StartPeriodicChecks()
      modifies this
      ensures lifecycle == old(lifecycle) + [Start] && checks == old(checks)
    {
      lifecycle := lifecycle + [Start];
    }

    method StopPeriodicChecks()
      modifies this
      ensures lifecycle == old(lifecycle) + [Stop] && checks == old(checks)
    {
      lifecycle := lifecycle + [Stop];
    }
  }

  const CacheControl: string := "Cache-Control"
  const Pragma: string := "Pragma"
  const Expires: string := "Expires"
  const ContentType: string := "Content-Type"
  const NoCacheValue: string := "no-cache"
  const ExpiredValue: string := "-1"
  const JsonContentType: string := "application/json; charset=utf-8"

  /**
   * mapHTTPStatus (handler.go:59-64): 503 Service Unavailable for down and
   * unknown, 200 OK otherwise; no other code is ever returned.
   */
  function MapHttpStatus(status: AvailabilityStatus): (code: int)
    ensures code == StatusServiceUnavailable <==> status == Down || status == Unknown
    ensures code == StatusOK <==> status == Up
    ensures code == StatusOK || code == StatusServiceUnavailable
  {
    match status
    case Down | Unknown => StatusServiceUnavailable
    case Up => StatusOK
  }

  /**
   * The detail-disclosure decision of handler.go:23-27: details are withheld
   * exactly when the auth result is present and false; absent or true shows them.
   */
  function IncludeDetails(userAuthenticated: Option<bool>): (includeDetails: bool)
    ensures !includeDetails <==> userAuthenticated == Some(false)
    ensures userAuthenticated.None? ==> includeDetails
  {
    !(userAuthenticated.Some? && userAuthenticated.value == false)
  }

  /**
   * Read through the context: details are withheld exactly when the newest
   * value under the auth key is the bool false; a context with no entry under
   * that key shows them.
   */
  lemma DetailsWithheldExactlyOnDenial(ctx: Context)
    ensures !IncludeDetails(GetAuthResult(ctx)) <==> Lookup(ctx, AuthSuccessKey) == Some(BoolValue(false))
    ensures (forall i :: 0 <= i < |Entries(ctx)| ==> Entries(ctx)[i].key != AuthSuccessKey)
            ==> IncludeDetails(GetAuthResult(ctx))
  {
    AuthResultFromEntries(ctx);
  }

  /**
   * The header map after disableResponseCache (handler.go:42-49): the three
   * cache headers hold their fixed values and every other key is as it was.
   */
  function NoCache(h: Header): (h': Header)
    ensures h'.Keys == h.Keys + {CacheControl, Pragma, Expires}
    ensures h'[CacheControl] == NoCacheValue && h'[Pragma] == NoCacheValue && h'[Expires] == ExpiredValue
    ensures forall k :: k in h && k != CacheControl && k != Pragma && k != Expires ==> h'[k] == h[k]
  {
    h[CacheControl := NoCacheValue][Pragma := NoCacheValue][Expires := ExpiredValue]
  }

  /** Disabling the cache twice is the same as once. */
  lemma NoCacheIdempotent(h: Header)
    ensures NoCache(NoCache(h)) == NoCache(h)
  {
  }

  /** The calls disableResponseCache makes, in order. */
  const CacheWrites: seq<WriterCall> :=
    [HeaderSet(CacheControl, NoCacheValue), HeaderSet(Pragma, NoCacheValue), HeaderSet(Expires, ExpiredValue)]

  /** Those calls change the header map as NoCache says and nothing else. */
  lemma CacheWritesSetNoCache(r: Response)
    ensures Run(r, CacheWrites) == r.(header := NoCache(r.header))
  {
    var ws := CacheWrites;
    assert ws[..2][..1] == [ws[0]] && ws[..2] == [ws[0], ws[1]] && ws[..1] == [ws[0]];
    assert [ws[0]][..0] == [];
    assert Run(r, [ws[0]]) == Apply(r, ws[0]);
    assert Run(r, ws[..2]) == Apply(Apply(r, ws[0]), ws[1]);
  }

  /** disableResponseCache (handler.go:42-49) */
  method DisableResponseCache(w: ResponseWriter)
    modifies w
    ensures w.State() == old(w.State()).(header := NoCache(old(w.header)))
    ensures w.trace == old(w.trace) + CacheWrites
  {
    w.Set(CacheControl, NoCacheValue);
    w.Set(Pragma, NoCacheValue);
    w.Set(Expires, ExpiredValue);
  }

  /**
   * The calls ServeHTTP makes on the writer once the checker returned `res`
   * and marshalling gave `encoded` (handler.go:30-39).
   */
  function Reply(res: AggregatedCheckStatus, encoded: Result<Bytes>): seq<WriterCall>
  {
    match encoded
    case Err(e) => ErrorWrites(e, StatusInternalServerError)
    case Ok(json) =>
      CacheWrites + [HeaderWritten(MapHttpStatus(res.status)), HeaderSet(ContentType, JsonContentType), BodyWritten(json)]
  }

  /**
   * A failed marshal gives status 500 with the error text as body; no cache
   * header is set and the checker's status plays no part.
   */
  lemma MarshalFailureResponse(r: Response, res: AggregatedCheckStatus, e: Bytes)
    requires r.status.None?
    ensures Run(r, Reply(res, Err(e))) == r.(status := Some(StatusInternalServerError), sent := r.header, body := r.body + e)
  {
    ErrorResponse(r, e, StatusInternalServerError);
  }

  /** The three calls that follow disableResponseCache on success, run from `r`. */
  lemma {:induction false} SuccessTail(r: Response, code: int, json: Bytes)
    requires r.status.None?
    ensures Run(r, [HeaderWritten(code), HeaderSet(ContentType, JsonContentType), BodyWritten(json)])
            == r.(status := Some(code), sent := r.header, header := r.header[ContentType := JsonContentType], body := r.body + json)
  {
    var ws := [HeaderWritten(code), HeaderSet(ContentType, JsonContentType), BodyWritten(json)];
    assert ws[..2][..1] == [ws[0]] && ws[..2] == [ws[0], ws[1]] && ws[..1] == [ws[0]];
    assert [ws[0]][..0] == [];
    assert Run(r, [ws[0]]) == Apply(r, ws[0]);
    assert Run(r, ws[..2]) == Apply(Apply(r, ws[0]), ws[1]);
  }

  /**
   * A successful marshal gives the mapped status and the encoded body; the
   * cache headers are in place when the status is written, and Content-Type is
   * set in the header map only afterwards.
   */
  lemma MarshalSuccessResponse(r: Response, res: AggregatedCheckStatus, json: Bytes)
    requires r.status.None?
    ensures Run(r, Reply(res, Ok(json)))
            == r.(status := Some(MapHttpStatus(res.status)), sent := NoCache(r.header),
                  header := NoCache(r.header)[ContentType := JsonContentType], body := r.body + json)
  {
    var tail := [HeaderWritten(MapHttpStatus(res.status)), HeaderSet(ContentType, JsonContentType), BodyWritten(json)];
    RunAppend(r, CacheWrites, tail);
    CacheWritesSetNoCache(r);
    SuccessTail(r.(header := NoCache(r.header)), MapHttpStatus(res.status), json);
  }

  /**
   * As written, the Content-Type header is set after WriteHeader, so on a
   * writer that had no Content-Type it is not among the headers committed with
   * the status.
   */
  lemma ContentTypeNotSent(r: Response, res: AggregatedCheckStatus, json: Bytes)
    requires r.status.None? && ContentType !in r.header
    ensures ContentType !in Run(r, Reply(res, Ok(json))).sent
    ensures var header := Run(r, Reply(res, Ok(json))).header;
            ContentType in header && header[ContentType] == JsonContentType
  {
    MarshalSuccessResponse(r, res, json);
  }

  /** The calls with Content-Type set before the status is written. */
  function ReplyCorrected(res: AggregatedCheckStatus, encoded: Result<Bytes>): seq<WriterCall>
  {
    match encoded
    case Err(e) => ErrorWrites(e, StatusInternalServerError)
    case Ok(json) =>
      CacheWrites + [HeaderSet(ContentType, JsonContentType), HeaderWritten(MapHttpStatus(res.status)), BodyWritten(json)]
  }

  /**
   * With Content-Type set first, every successful response commits the three
   * cache headers and the JSON content type with the mapped status.
   */
  lemma {:induction false} CorrectedReplySendsContentType(r: Response, res: AggregatedCheckStatus, json: Bytes)
    requires r.status.None?
    ensures var r' := Run(r, ReplyCorrected(res, Ok(json)));
            && r'.sent == NoCache(r.header)[ContentType := JsonContentType]
            && r'.sent[ContentType] == JsonContentType
            && r'.sent[CacheControl] == NoCacheValue && r'.sent[Pragma] == NoCacheValue && r'.sent[Expires] == ExpiredValue
            && r'.status == Some(MapHttpStatus(res.status))
            && r'.body == r.body + json
  {
    var code := MapHttpStatus(res.status);
    var tail := [HeaderSet(ContentType, JsonContentType), HeaderWritten(code), BodyWritten(json)];
    RunAppend(r, CacheWrites, tail);
    CacheWritesSetNoCache(r);
    var r1 := r.(header := NoCache(r.header));
    assert tail[..2][..1] == [tail[0]] && tail[..2] == [tail[0], tail[1]];
    assert [tail[0]][..0] == [];
    assert Run(r1, [tail[0]]) == Apply(r1, tail[0]);
    assert Run(r1, tail[..2]) == Apply(Apply(r1, tail[0]), tail[1]);
  }

  /** healthCheckHandler (handler.go:10-13) */
  datatype HealthCheckHandler = HealthCheckHandler(ckr: Checker)
  {
    /**
     * ServeHTTP (handler.go:22-40): one Check call with the decided detail
     * flag and the request's context, then exactly the writes of Reply for its
     * result, in that order.
     */
    method ServeHTTP(w: ResponseWriter, r: Request, marshal: Marshaller)
      modifies w, ckr
      ensures |ckr.checks| == |old(ckr.checks)| + 1
      ensures ckr.checks[..|old(ckr.checks)|] == old(ckr.checks)
      ensures var call := ckr.checks[|ckr.checks| - 1];
              && call.ctx == r.ctx
              && call.includeDetails == IncludeDetails(GetAuthResult(r.ctx))
              && w.trace == old(w.trace) + Reply(call.result, marshal(call.result))
              && w.State() == Run(old(w.State()), Reply(call.result, marshal(call.result)))
      ensures ckr.lifecycle == old(ckr.lifecycle)
    {
      var includeDetails := true;
      var userAuthenticated := GetAuthResult(r.ctx);
      if userAuthenticated.Some? && userAuthenticated.value == false {
        includeDetails := false;
      }

      var res := ckr.Check(r.ctx, includeDetails);
      var jsonResp := marshal(res);
      if jsonResp.Err? {
        Error(w, jsonResp.error, StatusInternalServerError);
        assert Reply(res, jsonResp) == ErrorWrites(jsonResp.error, StatusInternalServerError);
        return;
      }

      ghost var r0 := w.State();
      assert r0 == old(w.State());
      DisableResponseCache(w);
      CacheWritesSetNoCache(r0);
      ghost var ws := CacheWrites;
      assert w.State() == Run(r0, ws);
      w.WriteHeader(MapHttpStatus(res.status));
      assert (ws + [HeaderWritten(MapHttpStatus(res.status))])[..|ws|] == ws;
      ws := ws + [HeaderWritten(MapHttpStatus(res.status))];
      assert w.State() == Run(r0, ws);
      w.Set(ContentType, JsonContentType);
      assert (ws + [HeaderSet(ContentType, JsonContentType)])[..|ws|] == ws;
      ws := ws + [HeaderSet(ContentType, JsonContentType)];
      assert w.State() == Run(r0, ws);
      w.Write(jsonResp.value);
      assert (ws + [BodyWritten(jsonResp.value)])[..|ws|] == ws;
      ws := ws + [BodyWritten(jsonResp.value)];
      assert w.State() == Run(r0, ws);
      assert ws == Reply(res, jsonResp);
    }
  }

  /**
   * An http.Handler: the bare health-check handler, or a layer some middleware
   * put around an inner handler.
   */
  datatype Handler =
    | Bare(hc: HealthCheckHandler)
    | Wrapped(name: string, inner: Handler)

  /** A Middleware: func(http.Handler) http.Handler. */
  type Middleware = Handler -> Handler

  /** m_n(...m_1(h)...) for middlewares = [m_1, ..., m_n]. */
  function Nest(middlewares: seq<Middleware>, h: Handler): Handler
    decreases |middlewares|
  {
    if middlewares == [] then h
    else middlewares[|middlewares| - 1](Nest(middlewares[..|middlewares| - 1], h))
  }

  /**
   * newHandler (handler.go:51-57): each middleware wraps the handler built so
   * far, so the result is m_n(...m_1(bare)...) and the last one is outermost.
   */
  method NewHandler(middlewares: seq<Middleware>, ckr: Checker) returns (handler: Handler)
    ensures handler == Nest(middlewares, Bare(HealthCheckHandler(ckr)))
  {
    handler := Bare(HealthCheckHandler(ckr));
    for i := 0 to |middlewares|
      invariant handler == Nest(middlewares[..i], Bare(HealthCheckHandler(ckr)))
    {
      assert middlewares[..i + 1][..i] == middlewares[..i];
      handler := middlewares[i](handler);
    }
    assert middlewares[..|middlewares|] == middlewares;
  }

  /** Composing with a list split in two is composing with the first part, then the second. */
  lemma {:induction false} NestAppend(first: seq<Middleware>, second: seq<Middleware>, h: Handler)
    ensures Nest(first + second, h) == Nest(second, Nest(first, h))
    decreases |second|
  {
    if second == [] {
      assert first + second == first;
    } else {
      var n := |second| - 1;
      assert (first + second)[..|first + second| - 1] == first + second[..n];
      assert (first + second)[|first + second| - 1] == second[n];
      NestAppend(first, second[..n], h);
    }
  }

  /** The names of the layers of a handler, outermost first. */
  function Layers(h: Handler): seq<string>
  {
    match h
    case Bare(_) => []
    case Wrapped(name, inner) => [name] + Layers(inner)
  }

  /** The health-check handler at the centre of the layers. */
  function Core(h: Handler): HealthCheckHandler
  {
    match h
    case Bare(hc) => hc
    case Wrapped(_, inner) => Core(inner)
  }

  /**
   * When each middleware puts one layer named `names[i]` around whatever it
   * is given, the layers, outermost first, are the middleware
   * list reversed; the bare handler stays at the centre; and the result is the
   * bare handler itself only when the list is empty.
   */
  lemma {:induction false} LastMiddlewareOutermost(middlewares: seq<Middleware>, names: seq<string>, hc: HealthCheckHandler)
    requires |middlewares| == |names|
    requires forall i, h :: 0 <= i < |names| ==> middlewares[i](h) == Wrapped(names[i], h)
    ensures var h := Nest(middlewares, Bare(hc));
            && |Layers(h)| == |names|
            && (forall i :: 0 <= i < |names| ==> Layers(h)[i] == names[|names| - 1 - i])
            && Core(h) == hc
            && (h.Bare? <==> names == [])
    decreases |names|
  {
    if names != [] {
      var n := |names| - 1;
      LastMiddlewareOutermost(middlewares[..n], names[..n], hc);
      var inner := Nest(middlewares[..n], Bare(hc));
      assert Nest(middlewares, Bare(hc)) == Wrapped(names[n], inner);
      assert Layers(Nest(middlewares, Bare(hc))) == [names[n]] + Layers(inner);
    }
  }

  /**
   * StartPeriodicChecks (handler.go:69-72): forwards to the checker of the
   * bare health-check handler; any other handler fails the type assertion.
   */
  method StartPeriodicChecks(healthHandler: Handler)
    requires healthHandler.Bare?
    modifies healthHandler.hc.ckr
    ensures healthHandler.hc.ckr.lifecycle == old(healthHandler.hc.ckr.lifecycle) + [Start]
    ensures healthHandler.hc.ckr.checks == old(healthHandler.hc.ckr.checks)
  {
    var ck := healthHandler.hc;
    ck.ckr.StartPeriodicChecks();
  }

  /** StopPeriodicChecks (handler.go:79-82): as StartPeriodicChecks, forwarding the stop. */
  method StopPeriodicChecks(healthHandler: Handler)
    requires healthHandler.Bare?
    modifies healthHandler.hc.ckr
    ensures healthHandler.hc.ckr.lifecycle == old(healthHandler.hc.ckr.lifecycle) + [Stop]
    ensures healthHandler.hc.ckr.checks == old(healthHandler.hc.ckr.checks)
  {
    var ck := healthHandler.hc;
    ck.ckr.StopPeriodicChecks();
  }
}
