/**
 * The response helpers (services/product-service/internal/infrastructure/api/response.go): the
 * pagination metadata, and the JSON envelope every endpoint answers with.
 *
 * `json.Marshal` is the `marshal` parameter: it yields the encoded bytes or fails. The payload
 * types the helpers are given are the cases of `Data`.
 */
module ApiResponse {
  import opened Wrappers
  import opened GoInt
  import opened Http
  import opened Domain
  import opened Validator
  import opened ApiDto

  const ResponseTypeSuccess: string := "success"
  const ResponseTypeError: string := "error"

  /** The fixed messages for ten status codes. */
  const StatusMessages: map<int, string> := map[
    StatusOK := "ok",
    StatusCreated := "Created",
    StatusAccepted := "Accepted",
    StatusNoContent := "No Content",
    StatusBadRequest := "Bad Request",
    StatusUnauthorized := "Unauthorized",
    StatusForbidden := "Forbidden",
    StatusNotFound := "Not Found",
    StatusConflict := "Conflict",
    StatusInternalServerError := "Internal Server Error"]

  /** The envelope's message: the table's entry, or "Success" for a code the table does not list. */
  function StatusMessage(code: int): (m: string)
    ensures code in StatusMessages ==> m == StatusMessages[code]
    ensures code !in StatusMessages ==> m == "Success"
  {
    if code in StatusMessages then StatusMessages[code] else "Success"
  }

  datatype Pagination = Pagination(
    currentPage: int, perPage: int, totalItems: int, totalPages: int, hasPrevPage: bool, hasNextPage: bool)

  /**
   * `NewPagination`. Go's integer division truncates towards zero and panics on a zero divisor,
   * so `perPage` must not be zero.
   */
  function NewPagination(currentPage: int, perPage: int, totalItems: int): (p: Pagination)
    requires perPage != 0
    ensures p.currentPage == currentPage && p.perPage == perPage && p.totalItems == totalItems
    ensures p.hasPrevPage <==> currentPage > 1
    ensures p.hasNextPage <==> currentPage < p.totalPages
  {
    var totalPages := Quot(totalItems, perPage) + (if Rem(totalItems, perPage) > 0 then 1 else 0);
    Pagination(currentPage, perPage, totalItems, totalPages, currentPage > 1, currentPage < totalPages)
  }

  /** For a positive page size and a non-negative count, the page count is the ceiling of their quotient. */
  lemma TotalPagesIsCeiling(currentPage: int, perPage: int, totalItems: int)
    requires perPage > 0 && totalItems >= 0
    ensures var n := NewPagination(currentPage, perPage, totalItems).totalPages;
            && n >= 0
            && (totalItems == 0 ==> n == 0)
            && (totalItems > 0 ==> (n - 1) * perPage < totalItems <= n * perPage)
  {
    QuotRemNonNegative(totalItems, perPage);
    var q, m := totalItems / perPage, totalItems % perPage;
    assert totalItems == q * perPage + m;
    if m > 0 {
      assert (q + 1) * perPage == q * perPage + perPage;
    } else if totalItems > 0 {
      assert q >= 1;
      assert (q - 1) * perPage == q * perPage - perPage;
    }
  }

  datatype PaginatedResponse = PaginatedResponse(items: seq<Product>, pagination: Pagination)

  /** The payloads the helpers are given; `Absent` is a nil interface value, which `omitempty` drops. */
  datatype Data =
    | Absent
    | MessageBody(message: string)                  // map[string]string{"message": ...}
    | ValidationErrors(errors: seq<ValidationError>)
    | ProductBody(product: ProductResponse)
    | PageBody(page: PaginatedResponse)

  datatype APIResponse = APIResponse(kind: string, message: string, data: Data, errors: Data)

  /**
   * The envelope `RespondWithJSON` builds: type "error" exactly for a code of 400 or more; the
   * payload in `data` on success and in `errors` on error, the other one absent.
   */
  function Envelope(statusCode: int, payload: Data): (r: APIResponse)
    ensures r.kind == ResponseTypeError <==> statusCode >= 400
    ensures r.kind == ResponseTypeSuccess <==> statusCode < 400
    ensures r.message == StatusMessage(statusCode)
    ensures statusCode < 400 ==> r.data == payload && r.errors == Absent
    ensures statusCode >= 400 ==> r.errors == payload && r.data == Absent
  {
    if statusCode >= 400 then APIResponse(ResponseTypeError, StatusMessage(statusCode), Absent, payload)
    else APIResponse(ResponseTypeSuccess, StatusMessage(statusCode), payload, Absent)
  }

  const FallbackBody: string := "{\"type\":\"error\",\"message\":\"Failed to encode response\"}"

  /**
   * The writer calls `RespondWithJSON` makes: the JSON content type, then the given code and the
   * encoded envelope, or 500 and a fixed error body when encoding fails.
   */
  function JSONOps(statusCode: int, payload: Data, marshal: APIResponse -> Option<seq<byte>>): (ops: seq<WriterOp>)
    ensures |ops| == 3 && ops[0] == SetHeader("Content-Type", "application/json")
    ensures marshal(Envelope(statusCode, payload)).Some? ==>
              ops[1] == WriteHeader(statusCode) && ops[2] == Write(marshal(Envelope(statusCode, payload)).value)
    ensures marshal(Envelope(statusCode, payload)).None? ==>
              ops[1] == WriteHeader(StatusInternalServerError) && ops[2] == Write(Ascii(FallbackBody))
  {
    match marshal(Envelope(statusCode, payload))
    case None => [SetHeader("Content-Type", "application/json"), WriteHeader(StatusInternalServerError), Write(Ascii(FallbackBody))]
    case Some(bytes) => [SetHeader("Content-Type", "application/json"), WriteHeader(statusCode), Write(bytes)]
  }

  /** `RespondWithJSON`. */
  method RespondWithJSON(w: Response, statusCode: int, payload: Data, marshal: APIResponse -> Option<seq<byte>>)
    modifies w
    ensures Applied(w, JSONOps(statusCode, payload, marshal))
  {
    var response := Envelope(statusCode, payload);
    var jsonData := marshal(response);
    var code, bytes;
    if jsonData.None? {
      code, bytes := StatusInternalServerError, Ascii(FallbackBody);
    } else {
      code, bytes := statusCode, jsonData.value;
    }
    w.SetHeader("Content-Type", "application/json");
    w.WriteHeader(code);
    var _, _ := w.Write(bytes);
    assert JSONOps(statusCode, payload, marshal) == [SetHeader("Content-Type", "application/json"), WriteHeader(code), Write(bytes)];
    HeaderStatusBody(old(w.header), "Content-Type", "application/json", code, bytes);
  }

  /** `RespondWithError`: the message as `{"message": ...}` under the given code. */
  method RespondWithError(w: Response, message: string, statusCode: int, marshal: APIResponse -> Option<seq<byte>>)
    modifies w
    ensures Applied(w, JSONOps(statusCode, MessageBody(message), marshal))
  {
    RespondWithJSON(w, statusCode, MessageBody(message), marshal);
  }

  /** `RespondWithValidationErrors`: always 400. */
  method RespondWithValidationErrors(w: Response, errors: seq<ValidationError>, marshal: APIResponse -> Option<seq<byte>>)
    modifies w
    ensures Applied(w, JSONOps(StatusBadRequest, ValidationErrors(errors), marshal))
  {
    RespondWithJSON(w, StatusBadRequest, ValidationErrors(errors), marshal);
  }

  /** `RespondWithPagination`: always 200, with the items and their pagination metadata. */
  method RespondWithPagination(w: Response, items: seq<Product>, page: int, perPage: int, totalItems: int,
                               marshal: APIResponse -> Option<seq<byte>>)
    requires perPage != 0
    modifies w
    ensures Applied(w, JSONOps(StatusOK, PageBody(PaginatedResponse(items, NewPagination(page, perPage, totalItems))), marshal))
  {
    var pagination := NewPagination(page, perPage, totalItems);
    RespondWithJSON(w, StatusOK, PageBody(PaginatedResponse(items, pagination)), marshal);
  }

  /** Whatever the payload, an envelope that encodes is answered with its own code, and one that does not with 500. */
  lemma JSONStatus(statusCode: int, payload: Data, marshal: APIResponse -> Option<seq<byte>>)
    ensures StatusesOf(JSONOps(statusCode, payload, marshal)) ==
              [if marshal(Envelope(statusCode, payload)).Some? then statusCode else StatusInternalServerError]
  {
    match marshal(Envelope(statusCode, payload))
    case None =>
      HeaderStatusBody(map[], "Content-Type", "application/json", StatusInternalServerError, Ascii(FallbackBody));
    case Some(bytes) =>
      HeaderStatusBody(map[], "Content-Type", "application/json", statusCode, bytes);
  }
}
