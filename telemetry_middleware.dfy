/**
 * Request instrumentation (pkg/telemetry/middleware.go): a response-writer decorator that captures
 * the status code and the response size, and the middleware that brackets the wrapped handler with
 * a span, Prometheus and OpenTelemetry measurements and two correlated log lines.
 *
 * The tracer, the instruments and the log output are one abstract object, `Instruments`, whose
 * fields record what the middleware did to them. The new span's identifiers, the elapsed time and
 * `http.StatusText` are parameters.
 */
module TelemetryMiddleware {
  import opened Wrappers
  import opened Http
  import opened TelemetryLogging
  import Strconv

  /** `telemetry.ResponseWriter`: the connection's writer plus the captured status code and size. */
  class ResponseWriter {
    const inner: Response
    var statusCode: int
    var size: int

    /** `&ResponseWriter{w, http.StatusOK, 0}`. */
    constructor (w: Response)
      ensures inner == w && statusCode == StatusOK && size == 0
    {
      inner := w;
      statusCode := StatusOK;
      size := 0;
    }

    /** `Header()` is the wrapped writer's, so a `Set` on it is a `Set` on that writer. */
    method SetHeader(key: string, value: string)
      modifies inner
      ensures inner.header == old(inner.header)[CanonicalKey(key) := value]
      ensures inner.statuses == old(inner.statuses) && inner.body == old(inner.body) && inner.closed == old(inner.closed)
    {
      inner.SetHeader(key, value);
    }

    /** Records the code, then forwards it. */
    method WriteHeader(code: int)
      modifies this, inner
      ensures statusCode == code && size == old(size)
      ensures inner.statuses == old(inner.statuses) + [code]
      ensures inner.header == old(inner.header) && inner.body == old(inner.body) && inner.closed == old(inner.closed)
    {
      statusCode := code;
      inner.WriteHeader(code);
    }

    /** Forwards the bytes and adds the count the connection reported to `size`. */
    method Write(data: seq<byte>) returns (n: int, err: Option<string>)
      modifies this, inner
      ensures size == old(size) + n && statusCode == old(statusCode)
      ensures inner.closed ==> n == 0 && err.Some? && inner.body == old(inner.body)
      ensures !inner.closed ==> n == |data| && err == None && inner.body == old(inner.body) + data
      ensures inner.header == old(inner.header) && inner.statuses == old(inner.statuses) && inner.closed == old(inner.closed)
    {
      n, err := inner.Write(data);
      size := size + n;
    }

    /** One call of a handler on the capturing writer, as the one-call script `[op]`. */
    method Apply(op: WriterOp)
      modifies this, inner
      ensures statusCode == LastStatus([op], old(statusCode))
      ensures size == old(size) + SizeOf([op], inner.closed)
      ensures inner.header == HeaderAfter(old(inner.header), [op])
      ensures inner.statuses == old(inner.statuses) + StatusesOf([op])
      ensures inner.body == old(inner.body) + (if inner.closed then [] else BodyOf([op]))
      ensures inner.closed == old(inner.closed)
    {
      OneOp(inner.header, op);
      match op {
        case SetHeader(k, v) => SetHeader(k, v);
        case WriteHeader(c) => WriteHeader(c);
        case Write(d) => var _, _ := Write(d);
      }
    }

    /** The calls of a script, one after the other, through the capturing writer. */
    method ApplyAll(ops: seq<WriterOp>)
      modifies this, inner
      ensures statusCode == LastStatus(ops, old(statusCode))
      ensures size == old(size) + SizeOf(ops, inner.closed)
      ensures inner.header == HeaderAfter(old(inner.header), ops)
      ensures inner.statuses == old(inner.statuses) + StatusesOf(ops)
      ensures inner.body == old(inner.body) + (if inner.closed then [] else BodyOf(ops))
      ensures inner.closed == old(inner.closed)
      decreases |ops|
    {
      if ops != [] {
        var last := |ops| - 1;
        ApplyAll(ops[..last]);
        Apply(ops[last]);
        OpsSnoc(old(inner.header), ops[..last], ops[last]);
        assert ops[..last] + [ops[last]] == ops;
      }
    }
  }

  /** The byte count a writer reports after `ops` on a connection that is closed or open. */
  function SizeOf(ops: seq<WriterOp>, closed: bool): int {
    if closed then 0 else |BodyOf(ops)|
  }

  /**
   * `next.ServeHTTP(rw, r)` with the capturing writer: the handler's calls reach the connection
   * unchanged, the captured status is the last one written (or the previous value), and the
   * captured size grows by the bytes the connection accepted.
   */
  method ServeThrough(next: Handler, rw: ResponseWriter, r: Request)
    modifies next, rw, rw.inner
    ensures next.calls == old(next.calls) + [r]
    ensures rw.statusCode == LastStatus(next.ops, old(rw.statusCode))
    ensures rw.size == old(rw.size) + SizeOf(next.ops, rw.inner.closed)
    ensures rw.inner.header == HeaderAfter(old(rw.inner.header), next.ops)
    ensures rw.inner.statuses == old(rw.inner.statuses) + StatusesOf(next.ops)
    ensures rw.inner.body == old(rw.inner.body) + (if rw.inner.closed then [] else BodyOf(next.ops))
    ensures rw.inner.closed == old(rw.inner.closed)
  {
    next.calls := next.calls + [r];
    rw.ApplyAll(next.ops);
  }

  datatype Attr = StringAttr(key: string, text: string) | IntAttr(key: string, n: int)
  datatype SpanStatus = Unset | Ok | Error(description: string)
  datatype SpanKind = Internal | Server

  /** An ended span: its name, kind, attributes in the order they were set, and status. */
  datatype Span = Span(name: string, kind: SpanKind, attrs: seq<Attr>, status: SpanStatus)

  /** One Prometheus observation: the label values and the observed value. */
  datatype Observation = Observation(labels: seq<string>, value: real)

  /**
   * What happened, in order: a log call, the wrapped handler run with the gauge's value meanwhile,
   * or the panic of a call on an OpenTelemetry instrument that was never created.
   */
  datatype Event = Logged(call: LogCall) | Served(request: Request, activeDuring: int) | Panicked

  /** `duration.Seconds()`. */
  function Seconds(nanos: int): real {
    nanos as real / 1000000000.0
  }

  /** The span's status: Error with the status text for a code of 400 or more, otherwise Ok. */
  function StatusOfSpan(code: int, statusText: int -> string): (s: SpanStatus)
    ensures s.Error? <==> code >= 400
    ensures s.Error? ==> s.description == statusText(code)
    ensures !s.Error? ==> s == Ok
  {
    if code >= 400 then Error(statusText(code)) else Ok
  }

  /** The attributes set when the span starts. */
  function StartAttrs(r: Request): seq<Attr> {
    [StringAttr("http.method", r.verb), StringAttr("http.url", r.url),
     StringAttr("http.user_agent", r.userAgent), StringAttr("http.remote_addr", r.remoteAddr)]
  }

  /** The ended span of a request answered with `status` and `size` bytes. */
  function RequestSpan(r: Request, status: int, size: int, statusText: int -> string): Span {
    Span(r.path, Server,
         StartAttrs(r) + [IntAttr("http.status_code", status), IntAttr("http.response_size", size)],
         StatusOfSpan(status, statusText))
  }

  function StartedLine(span: SpanContext, r: Request): LogCall {
    Correlated(span, "Request started: %s %s", [Text(r.verb), Text(r.path)])
  }

  function CompletedLine(span: SpanContext, r: Request, status: int, size: int, elapsed: int): LogCall {
    Correlated(span, "Request completed: %s %s %d %d %.6fs",
               [Text(r.verb), Text(r.path), Number(status), Number(size), Duration(elapsed)])
  }

  /**
   * The tracer, the Prometheus and OpenTelemetry instruments and the log output. `otelReady` says
   * whether the metrics stage created the OpenTelemetry instruments (`RequestCounter`,
   * `RequestDuration`, `ActiveRequests`): with metrics disabled it returns before creating them,
   * and they stay nil.
   */
  class Instruments {
    const otelReady: bool
    var activeRequests: int              // Prometheus gauge
    var requestsTotal: seq<seq<string>>  // label values of each counter increment
    var requestDuration: seq<Observation>
    var otelRequests: int                // RequestCounter
    var otelDurations: seq<real>         // RequestDuration
    var otelActive: int                  // ActiveRequests up-down counter
    var spans: seq<Span>
    var events: seq<Event>

    constructor (otelReady: bool)
      ensures this.otelReady == otelReady
      ensures activeRequests == 0 && requestsTotal == [] && requestDuration == [] && otelRequests == 0
      ensures otelDurations == [] && otelActive == 0 && spans == [] && events == []
    {
      this.otelReady := otelReady;
      activeRequests := 0;
      requestsTotal := [];
      requestDuration := [];
      otelRequests := 0;
      otelDurations := [];
      otelActive := 0;
      spans := [];
      events := [];
    }

    /**
     * `Middleware(next)` serving `r` on `w`. `span` is the context of the span the tracer starts
     * (named after the path), `elapsed` the nanoseconds `time.Since(startTime)` reports.
     *
     * The gauge is one higher while the handler runs and back at its prior value afterwards; one
     * counter increment labelled (method, path, final status) and one duration observation
     * labelled (method, path) are recorded; the OpenTelemetry up-down counter only goes down;
     * the span carries the captured status and size and is Error exactly for a status of 400 or
     * more; the "started" line precedes the handler and the "completed" line follows it.
     *
     * Without the OpenTelemetry instruments, `RequestCounter.Add` panics right after the two
     * Prometheus records: the gauge stays one higher, the deferred `span.End()` ends the span with
     * its start attributes and no status, and no "completed" line is logged.
     */
    method Middleware(next: Handler, w: Response, r: Request, span: SpanContext, elapsed: int,
                      statusText: int -> string)
      modifies this, next, w
      ensures requestsTotal == old(requestsTotal) + [[r.verb, r.path, Strconv.Itoa(LastStatus(next.ops, StatusOK))]]
      ensures requestDuration == old(requestDuration) + [Observation([r.verb, r.path], Seconds(elapsed))]
      ensures otelReady ==>
                && activeRequests == old(activeRequests)
                && otelRequests == old(otelRequests) + 1
                && otelDurations == old(otelDurations) + [Seconds(elapsed)]
                && otelActive == old(otelActive) - 1
                && spans == old(spans) + [RequestSpan(r, LastStatus(next.ops, StatusOK), SizeOf(next.ops, w.closed), statusText)]
                && events == old(events) + [
                     Logged(StartedLine(span, r)),
                     Served(r.(span := span), old(activeRequests) + 1),
                     Logged(CompletedLine(span, r, LastStatus(next.ops, StatusOK), SizeOf(next.ops, w.closed), elapsed))]
      ensures !otelReady ==>
                && activeRequests == old(activeRequests) + 1
                && otelRequests == old(otelRequests) && otelDurations == old(otelDurations) && otelActive == old(otelActive)
                && spans == old(spans) + [Span(r.path, Server, StartAttrs(r), Unset)]
                && events == old(events) + [Logged(StartedLine(span, r)), Served(r.(span := span), old(activeRequests) + 1), Panicked]
      ensures next.calls == old(next.calls) + [r.(span := span)]
      ensures w.header == HeaderAfter(old(w.header), next.ops)
      ensures w.statuses == old(w.statuses) + StatusesOf(next.ops)
      ensures w.body == old(w.body) + (if w.closed then [] else BodyOf(next.ops))
      ensures w.closed == old(w.closed)
    {
      var rw := new ResponseWriter(w);
      Begin(r, span);
      ghost var begun := this.events;
      ServeThrough(next, rw, r.(span := span));
      assert rw.statusCode == LastStatus(next.ops, StatusOK) && rw.size == SizeOf(next.ops, w.closed);
      assert this.events == begun;
      Finish(r, span, rw.statusCode, rw.size, elapsed, statusText);
    }

    /** Up to the handler call: the gauge goes up and the "started" line is logged. */
    method Begin(r: Request, span: SpanContext)
      modifies this
      ensures activeRequests == old(activeRequests) + 1
      ensures events == old(events) + [Logged(StartedLine(span, r)), Served(r.(span := span), activeRequests)]
      ensures requestsTotal == old(requestsTotal) && requestDuration == old(requestDuration)
      ensures otelRequests == old(otelRequests) && otelDurations == old(otelDurations)
      ensures otelActive == old(otelActive) && spans == old(spans)
    {
      activeRequests := activeRequests + 1;
      var started := LogWithContext(span, "Request started: %s %s", [Text(r.verb), Text(r.path)]);
      events := events + [Logged(started), Served(r.(span := span), activeRequests)];
    }

    /**
     * After the handler call, with the captured `status` and `size`. Without the OpenTelemetry
     * instruments the first call on one panics, after the Prometheus records; the span is ended as
     * it stands by the deferred `span.End()`.
     */
    method Finish(r: Request, span: SpanContext, status: int, size: int, elapsed: int, statusText: int -> string)
      modifies this
      ensures requestsTotal == old(requestsTotal) + [[r.verb, r.path, Strconv.Itoa(status)]]
      ensures requestDuration == old(requestDuration) + [Observation([r.verb, r.path], Seconds(elapsed))]
      ensures otelReady ==>
                && activeRequests == old(activeRequests) - 1
                && otelRequests == old(otelRequests) + 1
                && otelDurations == old(otelDurations) + [Seconds(elapsed)]
                && otelActive == old(otelActive) - 1
                && spans == old(spans) + [RequestSpan(r, status, size, statusText)]
                && events == old(events) + [Logged(CompletedLine(span, r, status, size, elapsed))]
      ensures !otelReady ==>
                && activeRequests == old(activeRequests)
                && otelRequests == old(otelRequests) && otelDurations == old(otelDurations) && otelActive == old(otelActive)
                && spans == old(spans) + [Span(r.path, Server, StartAttrs(r), Unset)]
                && events == old(events) + [Panicked]
    {
      var seconds := Seconds(elapsed);
      requestsTotal := requestsTotal + [[r.verb, r.path, Strconv.Itoa(status)]];
      requestDuration := requestDuration + [Observation([r.verb, r.path], seconds)];
      if !otelReady {
        events := events + [Panicked];
        spans := spans + [Span(r.path, Server, StartAttrs(r), Unset)];
        return;
      }
      otelRequests := otelRequests + 1;
      otelDurations := otelDurations + [seconds];
      activeRequests := activeRequests - 1;
      otelActive := otelActive - 1;
      var attrs := StartAttrs(r) + [IntAttr("http.status_code", status), IntAttr("http.response_size", size)];
      var spanStatus := if status >= 400 then Error(statusText(status)) else Ok;
      var completed := LogWithContext(span, "Request completed: %s %s %d %d %.6fs",
                                      [Text(r.verb), Text(r.path), Number(status), Number(size), Duration(elapsed)]);
      events := events + [Logged(completed)];
      spans := spans + [Span(r.path, Server, attrs, spanStatus)];
    }
  }

  /** A handler that writes no status leaves the captured status at 200, so its span is Ok. */
  lemma SilentHandlerIsOk(ops: seq<WriterOp>, statusText: int -> string)
    requires StatusesOf(ops) == []
    ensures LastStatus(ops, StatusOK) == StatusOK
    ensures StatusOfSpan(LastStatus(ops, StatusOK), statusText) == Ok
  {
  }
}
