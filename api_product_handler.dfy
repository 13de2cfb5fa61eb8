/**
 * The product HTTP handlers (services/product-service/internal/infrastructure/api/product_handler.go):
 * listing a page of products, fetching one by ID, and creating one. Each handler is an early-return
 * decision tree over the service's answers that ends in one response.
 *
 * The service is `Application.ProductService` over a scripted repository. The `{id}` path
 * parameter, the decoded JSON body (None when decoding fails), `uuid.Parse`, `UUID.String`,
 * `Time.Format`, `json.Marshal`, `fmt`'s `%f`, `time.Now()` and `uuid.New()` are parameters.
 */
module ApiProductHandler {
  import opened Wrappers
  import opened Http
  import opened Domain
  import opened Validator
  import opened Application
  import opened ApiDto
  import opened ApiResponse
  import opened ApiQueryParams
  import Logger

  const ListFailedBody: string := "{\"error\": \"failed to list products\"}"
  const InvalidIDBody: string := "{\"error\": \"invalid product ID format\"}"
  const NotFoundBody: string := "{\"error\": \"product not found\"}"
  const GetFailedBody: string := "{\"error\": \"failed to get product\"}"

  /** A status code and a fixed body, written without a content type. */
  function RawOps(code: int, body: string): seq<WriterOp> {
    [WriteHeader(code), Write(Ascii(body))]
  }

  /** `w.WriteHeader(code)` then `w.Write([]byte(body))`. */
  method RespondRaw(w: Response, code: int, body: string)
    modifies w
    ensures Applied(w, RawOps(code, body))
  {
    w.WriteHeader(code);
    var _, _ := w.Write(Ascii(body));
    OpsSnoc(old(w.header), [WriteHeader(code)], Write(Ascii(body)));
    OneOp(old(w.header), WriteHeader(code));
    OneOp(old(w.header), Write(Ascii(body)));
    assert [WriteHeader(code)] + [Write(Ascii(body))] == RawOps(code, body);
  }

  /** The status `GetProduct` answers a failed lookup with: 404 when the error is (or wraps) not-found, else 500. */
  function LookupFailureStatus(e: Error): (code: int)
    ensures code == StatusNotFound <==> Is(e, ProductNotFound)
    ensures code == StatusInternalServerError <==> !Is(e, ProductNotFound)
  {
    if Is(e, ProductNotFound) then StatusNotFound else StatusInternalServerError
  }

  /** A not-found error reaches the client as 404 however deeply it has been wrapped. */
  lemma {:induction false} WrappedNotFoundIs404(e: Error, contexts: seq<string>)
    requires Is(e, ProductNotFound)
    ensures LookupFailureStatus(WrapAll(e, contexts)) == StatusNotFound
    decreases |contexts|
  {
    if contexts != [] {
      WrappedNotFoundIs404(e, contexts[1..]);
    }
  }

  /** `e` wrapped with each context in turn, innermost first. */
  function WrapAll(e: Error, contexts: seq<string>): Error
    decreases |contexts|
  {
    if contexts == [] then e else Wrapped(contexts[0], WrapAll(e, contexts[1..]))
  }

  /** How `CreateProduct` ends. */
  datatype CreateOutcome =
    | DecodeFailed
    | LookupFailed
    | Rejected(errors: seq<ValidationError>)
    | ConversionFailed
    | StoreFailed
    | Created(response: ProductResponse)

  /** The entry `Check` adds when the category does not exist. */
  const MissingCategory: ValidationError := ValidationError("category_id", "Category does not exist")

  /**
   * The decision `CreateProduct` makes, given the errors its validator already holds (`before`),
   * the repository's answers and the new ID. The response of a created product shows the new ID,
   * the request's fields, the parsed category and the two timestamps.
   */
  function CreateDecision(decoded: Option<ProductRequest>, before: seq<ValidationError>, parse: string -> Option<UUID>,
                          formatFloat: real -> string, categoryExists: UUID -> Result<bool, Error>,
                          createErr: Option<Error>, newID: UUID, createdAt: Instant, updatedAt: Instant,
                          uuidText: UUID -> string, formatTime: Instant -> string): CreateOutcome
  {
    match decoded
    case None => DecodeFailed
    case Some(req) =>
      var found := categoryExists(CategoryOf(req, parse));
      if found.Failure? then LookupFailed
      else
        var errs := before + RequestErrors(req, parse, formatFloat) + (if found.value then [] else [MissingCategory]);
        if errs != [] then Rejected(errs)
        else StoreDecision(req, parse, createErr, newID, createdAt, updatedAt, uuidText, formatTime)
  }

  /** The end of the decision, once every check has passed: convert, store, answer. */
  function StoreDecision(req: ProductRequest, parse: string -> Option<UUID>, createErr: Option<Error>, newID: UUID,
                         createdAt: Instant, updatedAt: Instant, uuidText: UUID -> string,
                         formatTime: Instant -> string): CreateOutcome
  {
    if parse(req.categoryID).None? then ConversionFailed
    else if createErr.Some? then StoreFailed
    else Created(ProductResponse(uuidText(newID), req.name, req.description, req.price, req.sku,
                                 uuidText(parse(req.categoryID).value), formatTime(createdAt), formatTime(updatedAt)))
  }

  /** The errors the validator holds after `CreateProduct` ran the checks it reached. */
  function ErrorsAfter(decoded: Option<ProductRequest>, before: seq<ValidationError>, parse: string -> Option<UUID>,
                       formatFloat: real -> string, categoryExists: UUID -> Result<bool, Error>): seq<ValidationError>
  {
    match decoded
    case None => before
    case Some(req) =>
      var found := categoryExists(CategoryOf(req, parse));
      before + RequestErrors(req, parse, formatFloat)
      + (if found.Success? && !found.value then [MissingCategory] else [])
  }

  /** The writer calls each outcome makes, through the JSON envelope. */
  function CreateOps(o: CreateOutcome, marshal: APIResponse -> Option<seq<byte>>): seq<WriterOp> {
    match o
    case DecodeFailed => JSONOps(StatusBadRequest, MessageBody("failed to decode request body"), marshal)
    case LookupFailed => JSONOps(StatusInternalServerError, MessageBody("failed to check if category exists"), marshal)
    case Rejected(errs) => JSONOps(StatusBadRequest, ValidationErrors(errs), marshal)
    case ConversionFailed => JSONOps(StatusBadRequest, MessageBody("invalid request data"), marshal)
    case StoreFailed => JSONOps(StatusInternalServerError, MessageBody("failed to create product"), marshal)
    case Created(resp) => JSONOps(StatusCreated, ProductBody(resp), marshal)
  }

  /** The status code each outcome asks for. */
  function CreateStatus(o: CreateOutcome): (code: int)
    ensures code == StatusCreated <==> o.Created?
    ensures code == StatusInternalServerError <==> o.LookupFailed? || o.StoreFailed?
    ensures code == StatusBadRequest <==> o.DecodeFailed? || o.Rejected? || o.ConversionFailed?
  {
    match o
    case DecodeFailed => StatusBadRequest
    case LookupFailed => StatusInternalServerError
    case Rejected(_) => StatusBadRequest
    case ConversionFailed => StatusBadRequest
    case StoreFailed => StatusInternalServerError
    case Created(_) => StatusCreated
  }

  /** The client sees the outcome's status, or 500 when the envelope does not encode. */
  lemma CreateOpsStatus(o: CreateOutcome, marshal: APIResponse -> Option<seq<byte>>)
    ensures |StatusesOf(CreateOps(o, marshal))| == 1
    ensures StatusesOf(CreateOps(o, marshal))[0] in {CreateStatus(o), StatusInternalServerError}
  {
    match o
    case DecodeFailed => JSONStatus(StatusBadRequest, MessageBody("failed to decode request body"), marshal);
    case LookupFailed => JSONStatus(StatusInternalServerError, MessageBody("failed to check if category exists"), marshal);
    case Rejected(errs) => JSONStatus(StatusBadRequest, ValidationErrors(errs), marshal);
    case ConversionFailed => JSONStatus(StatusBadRequest, MessageBody("invalid request data"), marshal);
    case StoreFailed => JSONStatus(StatusInternalServerError, MessageBody("failed to create product"), marshal);
    case Created(resp) => JSONStatus(StatusCreated, ProductBody(resp), marshal);
  }

  /**
   * `ToModel` never fails after the checks pass: an unparsable category ID has already been
   * reported by `Validate`, so that request is rejected first.
   */
  lemma ConversionNeverFails(decoded: Option<ProductRequest>, before: seq<ValidationError>, parse: string -> Option<UUID>,
                             formatFloat: real -> string, categoryExists: UUID -> Result<bool, Error>,
                             createErr: Option<Error>, newID: UUID, createdAt: Instant, updatedAt: Instant,
                             uuidText: UUID -> string, formatTime: Instant -> string)
    ensures !CreateDecision(decoded, before, parse, formatFloat, categoryExists, createErr, newID, createdAt,
                            updatedAt, uuidText, formatTime).ConversionFailed?
  {
    if decoded.Some? {
      RequestErrorsEmptyIff(decoded.value, parse, formatFloat);
    }
  }

  /**
   * With a validator that starts empty, a request is created exactly when it decodes, passes every
   * field check, its category exists and the repository stores it; a rejection lists the field
   * errors in check order and the missing category last.
   */
  lemma CreatedIff(decoded: Option<ProductRequest>, parse: string -> Option<UUID>,
                   formatFloat: real -> string, categoryExists: UUID -> Result<bool, Error>,
                   createErr: Option<Error>, newID: UUID, createdAt: Instant, updatedAt: Instant,
                   uuidText: UUID -> string, formatTime: Instant -> string)
    ensures CreateDecision(decoded, [], parse, formatFloat, categoryExists, createErr, newID, createdAt,
                           updatedAt, uuidText, formatTime).Created?
            <==>
            && decoded.Some?
            && RequestErrors(decoded.value, parse, formatFloat) == []
            && categoryExists(CategoryOf(decoded.value, parse)) == Success(true)
            && createErr.None?
    ensures decoded.Some? && categoryExists(CategoryOf(decoded.value, parse)).Success? ==>
              var o := CreateDecision(decoded, [], parse, formatFloat, categoryExists, createErr, newID, createdAt,
                                      updatedAt, uuidText, formatTime);
              o.Rejected? ==> o.errors[..|RequestErrors(decoded.value, parse, formatFloat)|]
                              == RequestErrors(decoded.value, parse, formatFloat)
  {
    if decoded.Some? {
      RequestErrorsEmptyIff(decoded.value, parse, formatFloat);
      var e := RequestErrors(decoded.value, parse, formatFloat);
      var found := categoryExists(CategoryOf(decoded.value, parse));
      if found.Success? {
        var errs := [] + e + (if found.value then [] else [MissingCategory]);
        assert errs[..|e|] == e;
      }
    }
  }

  /**
   * As written, every request shares the handler's validator, whose errors are never cleared:
   * once it holds an error, every later request whose body decodes and whose category lookup
   * answers is rejected with 400, however valid, with the stale errors first. (A body that does
   * not decode is still answered 400, and a failed lookup 500, before the errors are looked at.)
   * For example, after a request with an empty name, a completely valid request is rejected.
   */
  lemma StaleErrorsRejectEveryRequest(decoded: Option<ProductRequest>, before: seq<ValidationError>,
                                      parse: string -> Option<UUID>, formatFloat: real -> string,
                                      categoryExists: UUID -> Result<bool, Error>, createErr: Option<Error>,
                                      newID: UUID, createdAt: Instant, updatedAt: Instant,
                                      uuidText: UUID -> string, formatTime: Instant -> string)
    requires before != []
    requires decoded.Some? && categoryExists(CategoryOf(decoded.value, parse)).Success?
    ensures var o := CreateDecision(decoded, before, parse, formatFloat, categoryExists, createErr, newID,
                                    createdAt, updatedAt, uuidText, formatTime);
            o.Rejected? && |before| <= |o.errors| && o.errors[..|before|] == before
            && CreateStatus(o) == StatusBadRequest
  {
    var req := decoded.value;
    var found := categoryExists(CategoryOf(req, parse));
    var errs := before + RequestErrors(req, parse, formatFloat) + (if found.value then [] else [MissingCategory]);
    assert errs[..|before|] == before;
  }

  /** The concrete case: an earlier request without a name blocks a later, valid one. */
  lemma NamelessRequestBlocksTheNext(first: ProductRequest, second: ProductRequest, parse: string -> Option<UUID>,
                                     formatFloat: real -> string, categoryExists: UUID -> Result<bool, Error>,
                                     newID: UUID, createdAt: Instant, updatedAt: Instant,
                                     uuidText: UUID -> string, formatTime: Instant -> string)
    requires first.name == "" && RequestErrors(second, parse, formatFloat) == []
    requires categoryExists(CategoryOf(first, parse)).Success? && categoryExists(CategoryOf(second, parse)) == Success(true)
    ensures CreateDecision(Some(second), [], parse, formatFloat, categoryExists, None, newID,
                           createdAt, updatedAt, uuidText, formatTime).Created?
    ensures var left := ErrorsAfter(Some(first), [], parse, formatFloat, categoryExists);
            CreateDecision(Some(second), left, parse, formatFloat, categoryExists, None, newID,
                           createdAt, updatedAt, uuidText, formatTime).Rejected?
  {
    CreatedIff(Some(second), parse, formatFloat, categoryExists, None, newID, createdAt, updatedAt, uuidText, formatTime);
    var left := ErrorsAfter(Some(first), [], parse, formatFloat, categoryExists);
    assert RequiredErrors("name", first.name) != [];
    assert left[0] == RequiredErrors("name", first.name)[0];
    StaleErrorsRejectEveryRequest(Some(second), left, parse, formatFloat, categoryExists, None, newID,
                                  createdAt, updatedAt, uuidText, formatTime);
  }

  /** Exactly one call was added to the repository's log: storing a product under `id`. */
  predicate StoredOnce(before: seq<Call>, after: seq<Call>, id: UUID) {
    |after| == |before| + 1 && after[..|before|] == before && after[|before|].Create? && after[|before|].id == id
  }

  /**
   * The repository calls one `CreateProduct` makes, by outcome: none when decoding fails; the
   * category lookup when the request stops there or at validation or conversion; the lookup and
   * then the store under `id` otherwise.
   */
  predicate CallsAfter(o: CreateOutcome, before: seq<Call>, after: seq<Call>, category: UUID, id: UUID) {
    match o
    case DecodeFailed => after == before
    case LookupFailed => after == before + [Call.CategoryExists(category)]
    case Rejected(_) => after == before + [Call.CategoryExists(category)]
    case ConversionFailed => after == before + [Call.CategoryExists(category)]
    case StoreFailed => StoredOnce(before + [Call.CategoryExists(category)], after, id)
    case Created(_) => StoredOnce(before + [Call.CategoryExists(category)], after, id)
  }

  class ProductHandler {
    const service: ProductService
    const validator: Validator
    const logger: Logger.SimpleLogger

    /** `NewProductHandler`. */
    constructor (service: ProductService, validator: Validator, logger: Logger.SimpleLogger)
      ensures this.service == service && this.validator == validator && this.logger == logger
    {
      this.service := service;
      this.validator := validator;
      this.logger := logger;
    }

    /**
     * `ListProducts`. The query's page size is the limit and the offset is `GetOffset` as Go
     * computes it, wrapped to 64 bits. A repository error is logged at Info and answered with 500
     * and a fixed body; otherwise the page goes out with its pagination metadata and 200. The
     * error text is the logger's format string, so what is logged is `formatBare` of it: `fmt`
     * run on that text with no arguments.
     */
    method ListProducts(w: Response, r: Request, marshal: APIResponse -> Option<seq<byte>>,
                        formatBare: string -> string)
      modifies service.repo, w, logger.output
      ensures var params := ParamsOf(r.query);
              service.repo.calls == old(service.repo.calls) + [Call.GetAll(GetLimit(params), GetOffsetAsWritten(params))]
      ensures var params := ParamsOf(r.query);
              var answer := service.repo.all(GetLimit(params), GetOffsetAsWritten(params));
              && (answer.Failure? ==>
                    && Applied(w, RawOps(StatusInternalServerError, ListFailedBody))
                    && (Logger.Info < logger.level ==> logger.output.lines == old(logger.output.lines))
                    && (Logger.Info >= logger.level ==>
                          exists order | Logger.Enumerates(order, logger.fields.Keys) ::
                            logger.output.lines == old(logger.output.lines)
                                                   + [Logger.Line(Logger.Info, logger.useColors, formatBare(ErrorText(answer.error)), order, logger.fields)]))
              && (answer.Success? ==>
                    && Applied(w, JSONOps(StatusOK, PageBody(PaginatedResponse(answer.value.items,
                                          NewPagination(params.page, params.perPage, answer.value.total))), marshal))
                    && logger.output.lines == old(logger.output.lines))
    {
      var params := ParseQueryParams(r.query);
      assert params.perPage != 0 by {
        PageAndSizePositive(r.query);
      }
      var answer := service.GetAll(GetLimit(params), GetOffsetAsWritten(params));
      if answer.Failure? {
        var _ := logger.Log(Logger.Info, formatBare(ErrorText(answer.error)));
        RespondRaw(w, StatusInternalServerError, ListFailedBody);
        return;
      }
      RespondWithPagination(w, answer.value.items, params.page, params.perPage, answer.value.total, marshal);
    }

    /**
     * `GetProduct`. An ID that does not parse is answered with 400 before the service is asked; a
     * lookup error with 404 when it is (or wraps) not-found and 500 otherwise; a product with its
     * response view and 200.
     */
    method GetProduct(w: Response, idParam: string, parse: string -> Option<UUID>, uuidText: UUID -> string,
                      formatTime: Instant -> string, marshal: APIResponse -> Option<seq<byte>>)
      modifies service.repo, w
      ensures parse(idParam).None? ==>
                service.repo.calls == old(service.repo.calls) && Applied(w, RawOps(StatusBadRequest, InvalidIDBody))
      ensures parse(idParam).Some? ==>
                var id := parse(idParam).value;
                && service.repo.calls == old(service.repo.calls) + [Call.GetByID(id)]
                && (service.repo.byID(id).Failure? ==>
                      var e := service.repo.byID(id).error;
                      Applied(w, RawOps(LookupFailureStatus(e),
                                        if Is(e, ProductNotFound) then NotFoundBody else GetFailedBody)))
                && (service.repo.byID(id).Success? ==>
                      Applied(w, JSONOps(StatusOK, ProductBody(ProductResponseFromModel(service.repo.byID(id).value,
                                                                                         uuidText, formatTime)), marshal)))
    {
      var parsed := parse(idParam);
      if parsed.None? {
        RespondRaw(w, StatusBadRequest, InvalidIDBody);
        return;
      }
      var id := parsed.value;
      var found := service.GetByID(id);
      if found.Failure? {
        if Is(found.error, ProductNotFound) {
          RespondRaw(w, StatusNotFound, NotFoundBody);
        } else {
          RespondRaw(w, StatusInternalServerError, GetFailedBody);
        }
        return;
      }
      var product := found.value;
      var response := ProductResponse(
        uuidText(product.id), product.name, product.description, product.price,
        product.sku, uuidText(product.categoryID), formatTime(product.createdAt), formatTime(product.updatedAt));
      RespondWithJSON(w, StatusOK, ProductBody(response), marshal);
    }

    /**
     * `CreateProduct` as written: the checks run on the handler's own validator, so their errors
     * stay there for every later request.
     */
    method CreateProductAsWritten(w: Response, decoded: Option<ProductRequest>, parse: string -> Option<UUID>,
                                  formatFloat: real -> string, newID: UUID, createdAt: Instant, updatedAt: Instant,
                                  uuidText: UUID -> string, formatTime: Instant -> string,
                                  marshal: APIResponse -> Option<seq<byte>>)
      requires newID != Nil
      modifies service.repo, w, validator
      ensures validator.errors == ErrorsAfter(decoded, old(validator.errors), parse, formatFloat, service.repo.categoryExists)
      ensures Applied(w, CreateOps(CreateDecision(decoded, old(validator.errors), parse, formatFloat,
                                                  service.repo.categoryExists, service.repo.createErr, newID,
                                                  createdAt, updatedAt, uuidText, formatTime), marshal))
      ensures CallsAfter(CreateDecision(decoded, old(validator.errors), parse, formatFloat, service.repo.categoryExists,
                                        service.repo.createErr, newID, createdAt, updatedAt, uuidText, formatTime),
                         old(service.repo.calls), service.repo.calls,
                         if decoded.Some? then CategoryOf(decoded.value, parse) else Nil, newID)
    {
      CreateWith(validator, w, decoded, parse, formatFloat, newID, createdAt, updatedAt, uuidText, formatTime, marshal);
    }

    /** `CreateProduct` with a validator of its own for each request, which every decision above assumes. */
    method CreateProduct(w: Response, decoded: Option<ProductRequest>, parse: string -> Option<UUID>,
                         formatFloat: real -> string, newID: UUID, createdAt: Instant, updatedAt: Instant,
                         uuidText: UUID -> string, formatTime: Instant -> string,
                         marshal: APIResponse -> Option<seq<byte>>)
      requires newID != Nil
      modifies service.repo, w
      ensures Applied(w, CreateOps(CreateDecision(decoded, [], parse, formatFloat,
                                                  service.repo.categoryExists, service.repo.createErr, newID,
                                                  createdAt, updatedAt, uuidText, formatTime), marshal))
      ensures CallsAfter(CreateDecision(decoded, [], parse, formatFloat, service.repo.categoryExists,
                                        service.repo.createErr, newID, createdAt, updatedAt, uuidText, formatTime),
                         old(service.repo.calls), service.repo.calls,
                         if decoded.Some? then CategoryOf(decoded.value, parse) else Nil, newID)
    {
      var v := new Validator();
      CreateWith(v, w, decoded, parse, formatFloat, newID, createdAt, updatedAt, uuidText, formatTime, marshal);
    }

    /**
     * The steps of `CreateProduct` on validator `v`: decode, validate, check the category, reject on
     * any error, convert, store, answer 201 with the stored product.
     */
    method CreateWith(v: Validator, w: Response, decoded: Option<ProductRequest>, parse: string -> Option<UUID>,
                      formatFloat: real -> string, newID: UUID, createdAt: Instant, updatedAt: Instant,
                      uuidText: UUID -> string, formatTime: Instant -> string,
                      marshal: APIResponse -> Option<seq<byte>>)
      requires newID != Nil
      modifies service.repo, w, v
      ensures v.errors == ErrorsAfter(decoded, old(v.errors), parse, formatFloat, service.repo.categoryExists)
      ensures Applied(w, CreateOps(CreateDecision(decoded, old(v.errors), parse, formatFloat,
                                                  service.repo.categoryExists, service.repo.createErr, newID,
                                                  createdAt, updatedAt, uuidText, formatTime), marshal))
      ensures CallsAfter(CreateDecision(decoded, old(v.errors), parse, formatFloat, service.repo.categoryExists,
                                        service.repo.createErr, newID, createdAt, updatedAt, uuidText, formatTime),
                         old(service.repo.calls), service.repo.calls,
                         if decoded.Some? then CategoryOf(decoded.value, parse) else Nil, newID)
    {
      ghost var outcome := CreateDecision(decoded, old(v.errors), parse, formatFloat, service.repo.categoryExists,
                                          service.repo.createErr, newID, createdAt, updatedAt, uuidText, formatTime);
      if decoded.None? {
        assert outcome == DecodeFailed;
        RespondWithError(w, "failed to decode request body", StatusBadRequest, marshal);
        return;
      }
      var req := decoded.value;
      var found := RunChecks(v, req, parse, formatFloat);
      ghost var afterLookup := service.repo.calls;
      assert afterLookup == old(service.repo.calls) + [Call.CategoryExists(CategoryOf(req, parse))];
      if found.Failure? {
        assert outcome == LookupFailed;
        RespondWithError(w, "failed to check if category exists", StatusInternalServerError, marshal);
        return;
      }
      if !v.Valid() {
        assert outcome == Rejected(v.errors);
        RespondWithValidationErrors(w, v.errors, marshal);
        return;
      }
      RequestErrorsEmptyIff(req, parse, formatFloat);
      assert outcome == StoreDecision(req, parse, service.repo.createErr, newID, createdAt, updatedAt, uuidText, formatTime);
      Store(w, req, parse, newID, createdAt, updatedAt, uuidText, formatTime, marshal);
    }

    /**
     * The checks of `CreateProduct`: validate the request, ask whether its category exists, and
     * record a missing category; a failed lookup stops before the last step.
     */
    method RunChecks(v: Validator, req: ProductRequest, parse: string -> Option<UUID>, formatFloat: real -> string)
      returns (found: Result<bool, Error>)
      modifies service.repo, v
      ensures found == service.repo.categoryExists(CategoryOf(req, parse))
      ensures service.repo.calls == old(service.repo.calls) + [Call.CategoryExists(CategoryOf(req, parse))]
      ensures v.errors == ErrorsAfter(Some(req), old(v.errors), parse, formatFloat, service.repo.categoryExists)
    {
      var categoryID := Validate(req, v, parse, formatFloat);
      found := service.CategoryExists(categoryID);
      if found.Failure? {
        return;
      }
      v.Check(found.value, "category_id", "Category does not exist");
    }

    /** The steps of `CreateProduct` after the checks: convert the request, store it, answer 201. */
    method Store(w: Response, req: ProductRequest, parse: string -> Option<UUID>, newID: UUID,
                 createdAt: Instant, updatedAt: Instant, uuidText: UUID -> string, formatTime: Instant -> string,
                 marshal: APIResponse -> Option<seq<byte>>)
      requires newID != Nil && req.name != ""
      modifies service.repo, w
      ensures Applied(w, CreateOps(StoreDecision(req, parse, service.repo.createErr, newID, createdAt, updatedAt,
                                                 uuidText, formatTime), marshal))
      ensures parse(req.categoryID).None? ==> service.repo.calls == old(service.repo.calls)
      ensures parse(req.categoryID).Some? ==> StoredOnce(old(service.repo.calls), service.repo.calls, newID)
    {
      var outcome := ConvertAndCreate(req, parse, newID, createdAt, updatedAt, uuidText, formatTime);
      assert unchanged(w);
      if outcome.ConversionFailed? {
        assert CreateOps(outcome, marshal) == JSONOps(StatusBadRequest, MessageBody("invalid request data"), marshal);
        RespondWithError(w, "invalid request data", StatusBadRequest, marshal);
      } else if outcome.StoreFailed? {
        assert CreateOps(outcome, marshal) == JSONOps(StatusInternalServerError, MessageBody("failed to create product"), marshal);
        RespondWithError(w, "failed to create product", StatusInternalServerError, marshal);
      } else {
        assert CreateOps(outcome, marshal) == JSONOps(StatusCreated, ProductBody(outcome.response), marshal);
        RespondWithJSON(w, StatusCreated, ProductBody(outcome.response), marshal);
      }
    }

    /**
     * The conversion and the store of `CreateProduct`: the outcome they lead to, with the product
     * the response shows once the repository has given it the new ID.
     */
    method ConvertAndCreate(req: ProductRequest, parse: string -> Option<UUID>, newID: UUID,
                            createdAt: Instant, updatedAt: Instant, uuidText: UUID -> string,
                            formatTime: Instant -> string) returns (outcome: CreateOutcome)
      requires newID != Nil && req.name != ""
      modifies service.repo
      ensures outcome == StoreDecision(req, parse, service.repo.createErr, newID, createdAt, updatedAt,
                                       uuidText, formatTime)
      ensures parse(req.categoryID).None? ==> service.repo.calls == old(service.repo.calls)
      ensures parse(req.categoryID).Some? ==> StoredOnce(old(service.repo.calls), service.repo.calls, newID)
    {
      var converted := ToModel(req, parse, createdAt, updatedAt);
      if converted.None? {
        return ConversionFailed;
      }
      var product := converted.value;
      var err := service.Create(product, newID);
      if err.Some? {
        return StoreFailed;
      }
      outcome := Created(ProductResponseFromModel(product, uuidText, formatTime));
    }
  }
}
