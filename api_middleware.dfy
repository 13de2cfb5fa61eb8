/**
 * The HTTP middlewares of the product API
 * (services/product-service/internal/infrastructure/api/middleware.go): the JSON content type,
 * request-ID propagation, request logging with a level chosen by status, and CORS headers with
 * preflight handling.
 *
 * The capturing writer of this package has the same fields and methods as the telemetry one, so
 * the model uses `TelemetryMiddleware.ResponseWriter` for both. `uuid.NewUUID` is the `generated`
 * parameter (None when it fails); `http.StatusText` and the printed elapsed time are parameters.
 */
module ApiMiddleware {
  import opened Wrappers
  import opened Http
  import opened Strconv
  import opened GoInt
  import opened Logger
  import opened Config
  import TelemetryMiddleware

  /** `ContentTypeJson`: sets the JSON content type, then runs the next handler on the same writer. */
  method ContentTypeJson(next: Handler, w: Response, r: Request)
    modifies next, w
    ensures next.calls == old(next.calls) + [r]
    ensures w.header == HeaderAfter(old(w.header)[CanonicalKey("Content-Type") := "application/json"], next.ops)
    ensures w.statuses == old(w.statuses) + StatusesOf(next.ops)
    ensures w.body == old(w.body) + (if w.closed then [] else BodyOf(next.ops))
    ensures w.closed == old(w.closed)
  {
    w.SetHeader("Content-Type", "application/json");
    next.Serve(w, r);
  }

  /** The header name as the middleware spells it; `Get` and `Set` use its canonical form. */
  const RequestIDHeader: string := "X-Request-ID"

  /** The name the request ID is stored under, in the request and in the response. */
  lemma RequestIDHeaderCanonical()
    ensures CanonicalKey(RequestIDHeader) == "X-Request-Id"
  {
    var k := RequestIDHeader;
    RequestIDHeaderTokens();
    CanonicalKeyChars(k);
    var c := CanonicalKey(k);
    assert c[0] == 'X' && c[1] == '-' && c[2] == 'R' && c[3] == 'e' && c[4] == 'q' && c[5] == 'u';
    assert c[6] == 'e' && c[7] == 's' && c[8] == 't' && c[9] == '-' && c[10] == 'I' && c[11] == 'd';
  }

  /** Every character of `X-Request-ID` is a token character. */
  lemma RequestIDHeaderTokens()
    ensures AllTokens(RequestIDHeader)
  {
    var k := RequestIDHeader;
    forall i | 0 <= i < |k| ensures TokenChar(k[i]) {
      assert k[i] in "X-RequestID";
    }
  }

  /**
   * The request ID `RequestID` settles on: the incoming header when it is set, otherwise a newly
   * generated one, and "" when generation fails.
   */
  function ChosenRequestID(header: map<string, string>, generated: Option<string>): (id: string)
    ensures HeaderGet(header, RequestIDHeader) != "" ==> id == HeaderGet(header, RequestIDHeader)
    ensures HeaderGet(header, RequestIDHeader) == "" && generated.Some? ==> id == generated.value
    ensures HeaderGet(header, RequestIDHeader) == "" && generated.None? ==> id == ""
  {
    var incoming := HeaderGet(header, RequestIDHeader);
    if incoming == "" && generated.Some? then generated.value else incoming
  }

  /**
   * A request that arrives with an ID, which the server stores under the canonical name
   * `X-Request-Id` whatever the client's spelling, keeps that ID.
   */
  lemma IncomingIDKept(header: map<string, string>, generated: Option<string>)
    requires "X-Request-Id" in header && header["X-Request-Id"] != ""
    ensures ChosenRequestID(header, generated) == header["X-Request-Id"]
  {
    RequestIDHeaderCanonical();
  }

  /**
   * `RequestID`: the chosen ID goes into the response header and into the context of the request
   * the next handler receives; the request is otherwise unchanged.
   */
  method RequestID(next: Handler, w: Response, r: Request, generated: Option<string>)
    modifies next, w
    ensures var id := ChosenRequestID(r.header, generated);
            && next.calls == old(next.calls) + [r.(requestID := Some(id))]
            && w.header == HeaderAfter(old(w.header)[CanonicalKey(RequestIDHeader) := id], next.ops)
    ensures w.statuses == old(w.statuses) + StatusesOf(next.ops)
    ensures w.body == old(w.body) + (if w.closed then [] else BodyOf(next.ops))
    ensures w.closed == old(w.closed)
  {
    var requestID := HeaderGet(r.header, RequestIDHeader);
    if requestID == "" {
      if generated.Some? {
        requestID := generated.value;
      }
    }
    w.SetHeader(RequestIDHeader, requestID);
    next.Serve(w, r.(requestID := Some(requestID)));
  }

  /**
   * A handler that leaves the request-ID header alone (sets no name whose canonical form is that
   * of `X-Request-ID`, in any spelling) shows the client the same ID the handler received in its
   * context.
   */
  lemma {:induction false} RequestIDSeenTwice(ops: seq<WriterOp>, h: map<string, string>, id: string)
    requires forall i | 0 <= i < |ops| :: !(ops[i].SetHeader? && CanonicalKey(ops[i].key) == CanonicalKey(RequestIDHeader))
    ensures CanonicalKey(RequestIDHeader) in HeaderAfter(h[CanonicalKey(RequestIDHeader) := id], ops)
    ensures HeaderAfter(h[CanonicalKey(RequestIDHeader) := id], ops)[CanonicalKey(RequestIDHeader)] == id
  {
    if ops != [] {
      RequestIDSeenTwice(ops[..|ops| - 1], h, id);
    }
  }

  /** The level a completed request is logged at: Info below 400, Warn for 4xx, Error from 500 on. */
  function LevelForStatus(code: int): (l: LogLevel)
    ensures l == Info <==> code < 400
    ensures l == Warn <==> 400 <= code < 500
    ensures l == Error <==> code >= 500
  {
    if code < 400 then Info else if code < 500 then Warn else Error
  }

  /** The text of the request log line, with `%d` printed as `Itoa` does. */
  function RequestLogText(requestID: string, r: Request, status: int, statusText: int -> string,
                          elapsedText: string, size: int): string
  {
    LogHead(requestID, r) + Itoa(status) + LogTail(r, status, statusText, elapsedText, size)
  }

  /** The part of the request log line before the status code. */
  function LogHead(requestID: string, r: Request): string {
    "request_id=" + requestID + " method=" + r.verb + " status="
  }

  /** The part of the request log line after the status code. */
  function LogTail(r: Request, status: int, statusText: int -> string, elapsedText: string, size: int): string {
    "(" + statusText(status) + ") path=" + r.path + " query=" + r.rawQuery + " remote_ip=" + r.remoteAddr
    + " user_agent=" + r.userAgent + " duration=" + elapsedText + " size=" + Itoa(size)
  }

  /** The status in a request log line reads back as the status the handler left. */
  lemma RequestLogTextStatus(requestID: string, r: Request, status: int, statusText: int -> string,
                             elapsedText: string, size: int)
    requires InInt64(status)
    ensures var head := LogHead(requestID, r);
            var text := RequestLogText(requestID, r, status, statusText, elapsedText, size);
            && |head| + |Itoa(status)| <= |text|
            && text[..|head|] == head
            && Atoi(text[|head|..|head| + |Itoa(status)|]) == Some(status)
  {
    var head := LogHead(requestID, r);
    var text := RequestLogText(requestID, r, status, statusText, elapsedText, size);
    assert text[..|head|] == head;
    assert text[|head|..|head| + |Itoa(status)|] == Itoa(status);
    AtoiItoa(status);
  }

  /**
   * The `Logger` middleware. The next handler runs on a capturing writer that starts at 200 and 0
   * bytes and passes every call through to `w`; afterwards one line with the request's details is
   * logged at the level the captured status selects. The request ID is the one in the context, or
   * "" when there is none. The line is handed to the logger as its format string, so what is
   * logged is `formatBare` of it: `fmt` run on that text with no arguments, which rewrites the `%`
   * sequences it contains. The logger never exits the process here, since no status selects Fatal.
   */
  method LoggerMiddleware(log: SimpleLogger, next: Handler, w: Response, r: Request,
                          statusText: int -> string, elapsedText: string, formatBare: string -> string)
    returns (exit: Option<int>)
    modifies next, w, log.output
    ensures next.calls == old(next.calls) + [r]
    ensures w.header == HeaderAfter(old(w.header), next.ops)
    ensures w.statuses == old(w.statuses) + StatusesOf(next.ops)
    ensures w.body == old(w.body) + (if w.closed then [] else BodyOf(next.ops))
    ensures w.closed == old(w.closed)
    ensures var status := LastStatus(next.ops, StatusOK);
            var text := RequestLogText(if r.requestID.Some? then r.requestID.value else "", r, status, statusText,
                                       elapsedText, TelemetryMiddleware.SizeOf(next.ops, w.closed));
            && (LevelForStatus(status) < log.level ==> log.output.lines == old(log.output.lines))
            && (LevelForStatus(status) >= log.level ==>
                  exists order | Enumerates(order, log.fields.Keys) ::
                    log.output.lines == old(log.output.lines) + [Line(LevelForStatus(status), log.useColors, formatBare(text), order, log.fields)])
    ensures exit == None
  {
    var rw := new TelemetryMiddleware.ResponseWriter(w);
    TelemetryMiddleware.ServeThrough(next, rw, r);
    var requestID := if r.requestID.Some? then r.requestID.value else "";
    var text := RequestLogText(requestID, r, rw.statusCode, statusText, elapsedText, rw.size);
    var level := LevelForStatus(rw.statusCode);
    exit := log.Log(level, formatBare(text));
  }

  /** The Allow-Origin value `CORS` sends: the configured origins, or "*" when none are configured. */
  function AllowOrigin(s: ServerSettings): (origin: string)
    ensures origin != ""
    ensures s.allowedOrigins != "" ==> origin == s.allowedOrigins
  {
    if s.allowedOrigins == "" then "*" else s.allowedOrigins
  }

  const OriginHeader: string := "Access-Control-Allow-Origin"
  const MethodsHeader: string := "Access-Control-Allow-Methods"
  const HeadersHeader: string := "Access-Control-Allow-Headers"
  const CredentialsHeader: string := "Access-Control-Allow-Credentials"

  /** The names the four CORS headers are stored under. */
  const CorsKeys: set<string> := {CanonicalKey(OriginHeader), CanonicalKey(MethodsHeader),
                                  CanonicalKey(HeadersHeader), CanonicalKey(CredentialsHeader)}

  /** The four CORS headers are stored under four different names, so none overwrites another. */
  lemma CorsKeysDistinct()
    ensures CanonicalKey(OriginHeader) != CanonicalKey(MethodsHeader)
    ensures CanonicalKey(OriginHeader) != CanonicalKey(HeadersHeader)
    ensures CanonicalKey(OriginHeader) != CanonicalKey(CredentialsHeader)
    ensures CanonicalKey(MethodsHeader) != CanonicalKey(HeadersHeader)
    ensures CanonicalKey(MethodsHeader) != CanonicalKey(CredentialsHeader)
    ensures CanonicalKey(HeadersHeader) != CanonicalKey(CredentialsHeader)
  {
    CanonicalKeyChars(MethodsHeader);
    CanonicalKeyChars(HeadersHeader);
    assert MethodsHeader[20] == '-' && MethodsHeader[21] == 'M';
    assert HeadersHeader[20] == '-' && HeadersHeader[21] == 'H';
    assert CanonicalKey(MethodsHeader)[21] == 'M';
    assert CanonicalKey(HeadersHeader)[21] == 'H';
  }

  /** The header map after the CORS headers are set on `h`. */
  function CorsHeaders(h: map<string, string>, s: ServerSettings): (r: map<string, string>)
    ensures CanonicalKey(OriginHeader) in r && r[CanonicalKey(OriginHeader)] == AllowOrigin(s)
    ensures CanonicalKey(MethodsHeader) in r && r[CanonicalKey(MethodsHeader)] == s.allowedMethods
    ensures CanonicalKey(HeadersHeader) in r && r[CanonicalKey(HeadersHeader)] == s.allowedHeaders
    ensures s.allowCredentials ==> CanonicalKey(CredentialsHeader) in r && r[CanonicalKey(CredentialsHeader)] == "true"
    ensures !s.allowCredentials ==>
              (CanonicalKey(CredentialsHeader) in r <==> CanonicalKey(CredentialsHeader) in h)
              && (CanonicalKey(CredentialsHeader) in h ==> r[CanonicalKey(CredentialsHeader)] == h[CanonicalKey(CredentialsHeader)])
    ensures forall k | k !in CorsKeys :: (k in r <==> k in h) && (k in h ==> r[k] == h[k])
  {
    CorsKeysDistinct();
    var base := h[CanonicalKey(OriginHeader) := AllowOrigin(s)]
                 [CanonicalKey(MethodsHeader) := s.allowedMethods]
                 [CanonicalKey(HeadersHeader) := s.allowedHeaders];
    if s.allowCredentials then base[CanonicalKey(CredentialsHeader) := "true"] else base
  }

  /**
   * `CORS`. The CORS headers are set first. A preflight (`OPTIONS`) request is answered with 200
   * and never reaches the next handler; any other request is passed on once, on the same writer.
   */
  method CORS(cfg: AppConfig, next: Handler, w: Response, r: Request)
    modifies next, w
    ensures r.verb == "OPTIONS" ==>
              && next.calls == old(next.calls)
              && w.header == CorsHeaders(old(w.header), cfg.server)
              && w.statuses == old(w.statuses) + [StatusOK]
              && w.body == old(w.body)
    ensures r.verb != "OPTIONS" ==>
              && next.calls == old(next.calls) + [r]
              && w.header == HeaderAfter(CorsHeaders(old(w.header), cfg.server), next.ops)
              && w.statuses == old(w.statuses) + StatusesOf(next.ops)
              && w.body == old(w.body) + (if w.closed then [] else BodyOf(next.ops))
    ensures w.closed == old(w.closed)
  {
    var origin := cfg.server.allowedOrigins;
    if origin == "" {
      origin := "*";
    }
    w.SetHeader(OriginHeader, origin);
    w.SetHeader(MethodsHeader, cfg.server.allowedMethods);
    w.SetHeader(HeadersHeader, cfg.server.allowedHeaders);
    if cfg.server.allowCredentials {
      w.SetHeader(CredentialsHeader, "true");
    }
    if r.verb == "OPTIONS" {
      w.WriteHeader(StatusOK);
      return;
    }
    next.Serve(w, r);
  }
}
