/**
 * The slice of Go's `net/http` the core talks to: requests as values, the response writer as an
 * object whose header map, written status codes and body the code updates, and handlers.
 * A handler the core wraps is opaque code; the model describes it by the script of writer calls
 * it makes (`ops`) and records every request it is given (`calls`).
 */
module Http {
  import opened Wrappers

  newtype byte = x: int | 0 <= x < 256

  /** The bytes of an ASCII string literal such as a fixed JSON body. */
  function Ascii(s: string): (b: seq<byte>)
    ensures |b| == |s|
  {
    seq(|s|, i requires 0 <= i < |s| => ((s[i] as int) % 256) as byte)
  }

  const StatusOK: int := 200
  const StatusCreated: int := 201
  const StatusAccepted: int := 202
  const StatusNoContent: int := 204
  const StatusBadRequest: int := 400
  const StatusUnauthorized: int := 401
  const StatusForbidden: int := 403
  const StatusNotFound: int := 404
  const StatusConflict: int := 409
  const StatusInternalServerError: int := 500

  /** The trace and span identifiers of the span a request context carries; no span means an invalid context. */
  datatype SpanContext = SpanContext(traceID: string, spanID: string, valid: bool)

  /**
   * An inbound request (`verb` is the HTTP method). `header` maps a canonical header name (the
   * form the server stores every incoming name in, `CanonicalKey`) to its first value, `query` is
   * the parsed URL query, and the last two fields are the context values the middlewares use.
   */
  datatype Request = Request(
    verb: string,
    path: string,
    url: string,
    rawQuery: string,
    remoteAddr: string,
    userAgent: string,
    header: map<string, string>,
    query: map<string, seq<string>>,
    requestID: Option<string>,
    span: SpanContext)

  function UpperAscii(c: char): char {
    if 'a' <= c <= 'z' then (c as int - 32) as char else c
  }

  function LowerAscii(c: char): char {
    if 'A' <= c <= 'Z' then (c as int + 32) as char else c
  }

  /** The characters a header field name may consist of (an RFC 7230 token). */
  predicate TokenChar(c: char) {
    || ('a' <= c <= 'z') || ('A' <= c <= 'Z') || ('0' <= c <= '9')
    || c == '!' || c == '#' || c == '$' || c == '%' || c == '&' || c == '\'' || c == '*' || c == '+'
    || c == '-' || c == '.' || c == '^' || c == '_' || c == '`' || c == '|' || c == '~'
  }

  predicate AllTokens(key: string) {
    forall i | 0 <= i < |key| :: TokenChar(key[i])
  }

  /** Character `i` of the canonical form: upper case at the start and after each '-', lower case elsewhere. */
  function CanonChar(key: string, i: int): char
    requires 0 <= i < |key|
  {
    if i == 0 || key[i - 1] == '-' then UpperAscii(key[i]) else LowerAscii(key[i])
  }

  /**
   * `textproto.CanonicalMIMEHeaderKey`, which `Header.Get` and `Header.Set` apply to the name they
   * are given: a name made of token characters is rewritten character by character, any other
   * name is left as it is.
   */
  function CanonicalKey(key: string): (c: string)
    ensures |c| == |key|
  {
    if AllTokens(key) then seq(|key|, i requires 0 <= i < |key| => CanonChar(key, i)) else key
  }

  /** The canonical form character by character: rewritten when every character is a token character, unchanged otherwise. */
  lemma CanonicalKeyChars(key: string)
    ensures forall i | 0 <= i < |key| :: CanonicalKey(key)[i] == if AllTokens(key) then CanonChar(key, i) else key[i]
  {
  }

  /** A canonical name is its own canonical form. */
  lemma CanonicalKeyIdempotent(key: string)
    ensures CanonicalKey(CanonicalKey(key)) == CanonicalKey(key)
  {
    var c := CanonicalKey(key);
    CanonicalKeyChars(key);
    CanonicalKeyChars(c);
    if AllTokens(key) {
      assert AllTokens(c) by {
        forall i | 0 <= i < |c| ensures TokenChar(c[i]) {
          assert c[i] == CanonChar(key, i);
        }
      }
      forall i | 0 <= i < |c| ensures CanonicalKey(c)[i] == c[i] {
        assert c[i] == CanonChar(key, i);
        if i > 0 {
          assert c[i - 1] == CanonChar(key, i - 1);
          assert c[i - 1] == '-' <==> key[i - 1] == '-';
        }
      }
    }
  }

  /** Two characters equal up to the case of a letter agree on being a token, on being '-', and in upper case. */
  lemma SameUpToCase(x: char, y: char)
    requires LowerAscii(x) == LowerAscii(y)
    ensures TokenChar(x) <==> TokenChar(y)
    ensures x == '-' <==> y == '-'
    ensures UpperAscii(x) == UpperAscii(y)
  {
  }

  /** Names that differ only in the case of their letters have the same canonical form, so `Get` ignores case. */
  lemma CanonicalKeyIgnoresCase(a: string, b: string)
    requires AllTokens(a) && |a| == |b|
    requires forall i | 0 <= i < |a| :: LowerAscii(a[i]) == LowerAscii(b[i])
    ensures CanonicalKey(a) == CanonicalKey(b)
  {
    assert AllTokens(b) by {
      forall i | 0 <= i < |b| ensures TokenChar(b[i]) {
        SameUpToCase(a[i], b[i]);
      }
    }
    CanonicalKeyChars(a);
    CanonicalKeyChars(b);
    forall i | 0 <= i < |a| ensures CanonicalKey(a)[i] == CanonicalKey(b)[i] {
      SameUpToCase(a[i], b[i]);
      if i > 0 {
        SameUpToCase(a[i - 1], b[i - 1]);
      }
    }
  }

  /** `Header.Get`: the value stored under the canonical form of `key`, or "" when there is none. */
  function HeaderGet(h: map<string, string>, key: string): string {
    if CanonicalKey(key) in h then h[CanonicalKey(key)] else ""
  }

  /** One call a handler makes on the writer it was given. */
  datatype WriterOp =
    | SetHeader(key: string, value: string)
    | WriteHeader(code: int)
    | Write(data: seq<byte>)

  /** The header map after the `SetHeader` calls of `ops` (`Header().Set`, by canonical name), started from `h`. */
  function HeaderAfter(h: map<string, string>, ops: seq<WriterOp>): map<string, string> {
    if ops == [] then h
    else
      var before := HeaderAfter(h, ops[..|ops| - 1]);
      match ops[|ops| - 1]
      case SetHeader(k, v) => before[CanonicalKey(k) := v]
      case _ => before
  }

  /** The codes of the `WriteHeader` calls of `ops`, in order. */
  function StatusesOf(ops: seq<WriterOp>): seq<int> {
    if ops == [] then []
    else
      StatusesOf(ops[..|ops| - 1]) + match ops[|ops| - 1]
        case WriteHeader(c) => [c]
        case _ => []
  }

  /** The bytes of the `Write` calls of `ops`, concatenated in order. */
  function BodyOf(ops: seq<WriterOp>): seq<byte> {
    if ops == [] then []
    else
      BodyOf(ops[..|ops| - 1]) + match ops[|ops| - 1]
        case Write(d) => d
        case _ => []
  }

  /** The code of the last `WriteHeader` call in `ops`, or `init` when there is none. */
  function LastStatus(ops: seq<WriterOp>, init: int): (code: int)
    ensures StatusesOf(ops) == [] ==> code == init
    ensures StatusesOf(ops) != [] ==> code == StatusesOf(ops)[|StatusesOf(ops)| - 1]
  {
    if ops == [] then init
    else
      match ops[|ops| - 1]
      case WriteHeader(c) => c
      case _ => LastStatus(ops[..|ops| - 1], init)
  }

  /** The effect of a script is the effect of its prefix followed by that of its last call. */
  lemma OpsSnoc(h: map<string, string>, ops: seq<WriterOp>, op: WriterOp)
    ensures HeaderAfter(h, ops + [op]) == HeaderAfter(HeaderAfter(h, ops), [op])
    ensures StatusesOf(ops + [op]) == StatusesOf(ops) + StatusesOf([op])
    ensures BodyOf(ops + [op]) == BodyOf(ops) + BodyOf([op])
  {
    assert (ops + [op])[..|ops|] == ops;
  }

  /** The effect of a one-call script. */
  lemma OneOp(h: map<string, string>, op: WriterOp)
    ensures HeaderAfter(h, [op]) == (if op.SetHeader? then h[CanonicalKey(op.key) := op.value] else h)
    ensures StatusesOf([op]) == (if op.WriteHeader? then [op.code] else [])
    ensures BodyOf([op]) == (if op.Write? then op.data else [])
  {
    assert [op][..0] == [];
  }

  /** The effect of a three-call script, call by call. */
  lemma ThreeOps(h: map<string, string>, a: WriterOp, b: WriterOp, c: WriterOp)
    ensures HeaderAfter(h, [a, b, c]) == HeaderAfter(HeaderAfter(HeaderAfter(h, [a]), [b]), [c])
    ensures StatusesOf([a, b, c]) == StatusesOf([a]) + StatusesOf([b]) + StatusesOf([c])
    ensures BodyOf([a, b, c]) == BodyOf([a]) + BodyOf([b]) + BodyOf([c])
  {
    OpsSnoc(h, [a], b);
    OpsSnoc(h, [a, b], c);
    assert [a] + [b] == [a, b] && [a, b] + [c] == [a, b, c];
    OpsSnoc(h, [], a);
    assert [] + [a] == [a];
  }

  /** The effect of setting one header, writing a status and writing a body. */
  lemma HeaderStatusBody(h: map<string, string>, key: string, value: string, code: int, data: seq<byte>)
    ensures HeaderAfter(h, [SetHeader(key, value), WriteHeader(code), Write(data)]) == h[CanonicalKey(key) := value]
    ensures StatusesOf([SetHeader(key, value), WriteHeader(code), Write(data)]) == [code]
    ensures BodyOf([SetHeader(key, value), WriteHeader(code), Write(data)]) == data
  {
    ThreeOps(h, SetHeader(key, value), WriteHeader(code), Write(data));
    OneOp(h, SetHeader(key, value));
    OneOp(h[CanonicalKey(key) := value], WriteHeader(code));
    OneOp(h[CanonicalKey(key) := value], Write(data));
  }

  /** Since the old state, `w` has received the calls `ops` and nothing else. */
  twostate predicate Applied(w: Response, ops: seq<WriterOp>)
    reads w
  {
    && w.header == HeaderAfter(old(w.header), ops)
    && w.statuses == old(w.statuses) + StatusesOf(ops)
    && w.body == old(w.body) + (if w.closed then [] else BodyOf(ops))
    && w.closed == old(w.closed)
  }

  /**
   * The connection's `http.ResponseWriter`. A closed connection accepts no bytes: `Write` reports
   * 0 and an error, which is how the model lets the reported byte count differ from the request.
   */
  class Response {
    var header: map<string, string>
    var statuses: seq<int>
    var body: seq<byte>
    var closed: bool

    constructor (closed: bool)
      ensures header == map[] && statuses == [] && body == [] && this.closed == closed
    {
      header := map[];
      statuses := [];
      body := [];
      this.closed := closed;
    }

    /** `w.Header().Set(key, value)`: the value is stored under the canonical form of `key`. */
    method SetHeader(key: string, value: string)
      modifies this
      ensures header == old(header)[CanonicalKey(key) := value]
      ensures statuses == old(statuses) && body == old(body) && closed == old(closed)
    {
      header := header[CanonicalKey(key) := value];
    }

    /** One call of a handler on this writer: its effect is that of the one-call script `[op]`. */
    method Apply(op: WriterOp)
      modifies this
      ensures header == HeaderAfter(old(header), [op])
      ensures statuses == old(statuses) + StatusesOf([op])
      ensures body == old(body) + (if closed then [] else BodyOf([op]))
      ensures closed == old(closed)
    {
      OneOp(header, op);
      match op {
        case SetHeader(k, v) => SetHeader(k, v);
        case WriteHeader(c) => WriteHeader(c);
        case Write(d) => var _, _ := Write(d);
      }
    }

    /** The calls of a script, one after the other. */
    method ApplyAll(ops: seq<WriterOp>)
      modifies this
      ensures header == HeaderAfter(old(header), ops)
      ensures statuses == old(statuses) + StatusesOf(ops)
      ensures body == old(body) + (if closed then [] else BodyOf(ops))
      ensures closed == old(closed)
      decreases |ops|
    {
      if ops != [] {
        var last := |ops| - 1;
        ApplyAll(ops[..last]);
        Apply(ops[last]);
        OpsSnoc(old(header), ops[..last], ops[last]);
        assert ops[..last] + [ops[last]] == ops;
      }
    }

    method WriteHeader(code: int)
      modifies this
      ensures statuses == old(statuses) + [code]
      ensures header == old(header) && body == old(body) && closed == old(closed)
    {
      statuses := statuses + [code];
    }

    method Write(data: seq<byte>) returns (n: int, err: Option<string>)
      modifies this
      ensures closed ==> n == 0 && err.Some? && body == old(body)
      ensures !closed ==> n == |data| && err == None && body == old(body) + data
      ensures header == old(header) && statuses == old(statuses) && closed == old(closed)
    {
      if closed {
        n, err := 0, Some("write on a closed connection");
      } else {
        body := body + data;
        n, err := |data|, None;
      }
    }
  }

  /** A wrapped handler (`next`): the writer calls it makes, and the requests it has been given. */
  class Handler {
    const ops: seq<WriterOp>
    var calls: seq<Request>

    constructor (ops: seq<WriterOp>)
      ensures this.ops == ops && calls == []
    {
      this.ops := ops;
      calls := [];
    }

    /** `next.ServeHTTP(w, r)` on the connection's own writer. */
    method Serve(w: Response, r: Request)
      modifies this, w
      ensures calls == old(calls) + [r]
      ensures w.header == HeaderAfter(old(w.header), ops)
      ensures w.statuses == old(w.statuses) + StatusesOf(ops)
      ensures w.body == old(w.body) + (if w.closed then [] else BodyOf(ops))
      ensures w.closed == old(w.closed)
    {
      calls := calls + [r];
      w.ApplyAll(ops);
    }
  }
}
