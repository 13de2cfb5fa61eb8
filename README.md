# go-micro-commerce product service, modelled in Dafny

This project models the core of the product service of go-micro-commerce and proves properties of that model.

- **Configuration** (`pkg/config`):
  - the ordered validation of the database and server settings;
  - the environment helpers with their defaults;
  - the DSN and listen-address formatting;
  - `LoadConfig` without its file I/O.
- **Telemetry** (`pkg/telemetry`):
  - the telemetry configuration;
  - `Setup`, with its staged start-up, roll-back on failure and composed shutdown;
  - trace-correlated logging;
  - the instrumentation middleware and its status-capturing response writer.
- **Logger** (`pkg/logger`): a leveled logger with level names and colours, fields and derived loggers.
- **Domain and service**: the product entity and its guarded price update, and the application service over a repository.
- **Validator**: the request validator, which accumulates errors.
- **HTTP API**:
  - request DTOs and their validation;
  - the JSON response envelope and pagination;
  - list query parameters;
  - the four middlewares (content type, request ID, request logging, CORS);
  - the three real product handlers (list, get, create).

## How the model is built

- **Go's standard library.** The parts the core relies on are small modules:
  - `GoInt`: 64-bit `int`, truncating `/` and `%`, wrap-around;
  - `Strconv`: `Atoi`, `Itoa` and `ParseBool`, exact to Go's accepted syntax and range;
  - `Strings`: `Join`, and an ASCII `ToLower`;
  - `Http`: the request, the response writer and handlers, and the canonical form Go gives header names.
- **Header names.** `Header.Get` and `Header.Set` look a name up by its canonical form (`textproto.CanonicalMIMEHeaderKey`). The model does the same, so a header map holds canonical names only. This includes the request's incoming headers, which the server stores that way whatever the client's spelling. So `X-Request-ID` is stored and found as `X-Request-Id`.
- **Wrapped handlers.** A wrapped `http.Handler` is opaque code, so it is described by the script of writer calls it makes. Its `ServeHTTP` replays that script call by call (`ApplyAll` on the writer).
- **Mutable state is a class.** These objects are classes whose methods change fields and carry `modifies` clauses: the response writer, the capturing writer, the validator, the logger and its output, the telemetry instruments, the process state `Setup` changes, the product, the repository and the handler.
- **Repository.** It is out-of-process. It is modelled by fixed answers (functions of the arguments), and every call is recorded in `calls`. That makes "which repository calls a request makes" a postcondition.
- **Parameters.** Opaque outside functions are parameters of the operations that use them:
  - `json.Marshal` and `json.Decode`;
  - `uuid.Parse`, `UUID.String`, `uuid.New` and `uuid.NewUUID`;
  - `time.Now`, `Time.Format` and the elapsed time;
  - `http.StatusText`, and `fmt`'s `%f`;
  - the chi `{id}` parameter;
  - the outcomes of the tracing, metrics and logging set-up stages.
- **Two identical writers.** `api/middleware.go` declares a `ResponseWriter` identical to the telemetry one (fields at lines 52-56, `WriteHeader` at 59-62, `Write` at 65-69). The model uses `TelemetryMiddleware.ResponseWriter` for both.

## Model

| member | source | states |
|---|---|---|
| Strconv.Atoi | pkg/config/config.go:58 | Any accepted text starts with a sign or a digit, and its value fits a 64-bit int. |
| Strconv.AtoiItoa | pkg/telemetry/middleware.go:72 | Reading back the `%d` text of any 64-bit int gives the same int. |
| Strconv.AtoiRejectsNonDigit | pkg/config/config.go:105-108 | `Atoi` rejects any text with a non-digit after the optional sign. |
| Strconv.ParseBool | pkg/config/config.go:249-256 | Exactly the six spellings of true and the six of false are accepted; anything else is an error. |
| Strings.SplitJoin | services/product-service/internal/infrastructure/api/query_params.go:72 | Joining values with a separator none of them contains loses nothing: splitting gives back the values, in order. |
| Strings.ToLower | pkg/config/config.go:116 | Same length; each character is mapped to lower case by itself. |
| GoInt.Wrap64 | services/product-service/internal/infrastructure/api/query_params.go:83-85 | The result is always a 64-bit int, and it equals the exact value whenever that fits. |
| GoInt.QuotRemNonNegative | services/product-service/internal/infrastructure/api/response.go:56-57 | For a non-negative dividend and a positive divisor, Go's truncating `/` and `%` agree with the exact ones. |
| Http.LastStatus | pkg/telemetry/middleware.go:21-24 | The captured code is the last `WriteHeader` code, or the initial one when the handler wrote none. |
| Http.CanonicalKeyChars | services/product-service/internal/infrastructure/api/middleware.go:33 | The name `Header.Get` and `Header.Set` use. For a name of token characters: upper case at the start and after each '-', lower case elsewhere. Any other name is kept as written. |
| Http.CanonicalKeyIdempotent | services/product-service/internal/infrastructure/api/middleware.go:42 | A canonical name is its own canonical form, so what `Set` stores, `Get` finds under the same name. |
| Http.CanonicalKeyIgnoresCase | services/product-service/internal/infrastructure/api/middleware.go:33 | Token names that differ only in the case of their letters reach the same header. |
| Config.ValidateDB | pkg/config/config.go:52-87 | Returns no error exactly when every database setting is acceptable. |
| Config.ValidateDBIsFirstFailure | pkg/config/config.go:52-87 | The error returned is the first failing check, in the order host, port, user, database, migrations path, SSL mode. |
| Config.ValidateServer | pkg/config/config.go:104-121 | Returns no error exactly when the port is in 1..65535, the timeout is positive and the lower-cased log level is one of the four allowed. |
| Config.ValidateServerIsFirstFailure | pkg/config/config.go:104-121 | The error returned is the first failing check, in the order port, timeout, log level. |
| Config.Validate | pkg/config/config.go:144-156 | Valid exactly when both parts are. A database failure is reported ahead of any server failure, each wrapping that part's own error. |
| Config.HostCheckedBeforePort | pkg/config/config.go:54-56 | An empty host is the error reported, whatever else is wrong. |
| Config.LogLevelCaseInsensitive | pkg/config/config.go:116 | Two log levels with the same lower-case form validate alike. |
| Config.GetDSN | pkg/config/config.go:47-49 | The DSN starts with the `postgres://` scheme and ends with the SSL-mode parameter. The fields are inserted unescaped; what they determine is stated by `DSNRoundTrip`. |
| Config.DSNRoundTrip | pkg/config/config.go:47-49 | The DSN determines user, password, host, port, database and SSL mode, provided no field contains the delimiter that ends it. |
| Config.GetAddr | pkg/config/config.go:100-102 | The address is ":" followed by the port. |
| Config.InProduction | pkg/config/config.go:159-161 | True exactly for the production environment. |
| Config.GetEnv | pkg/config/config.go:232-238 | A set, non-empty value wins. An unset or empty variable gives the default. |
| Config.GetEnvAsInt | pkg/config/config.go:240-247 | The parsed value when the variable is set and parses, the default otherwise. |
| Config.GetEnvAsBool | pkg/config/config.go:249-256 | The parsed value when the variable is set and parses, the default otherwise. |
| Config.GetEnvAsIntReadsItoa | pkg/config/config.go:240-247 | A number written into the environment in decimal is read back exactly. |
| Config.DefaultTelemetry | pkg/config/config.go:211-221 | The telemetry section read from the environment: no text setting is ever empty, since each has a non-empty default. |
| Config.ConfigFromEnv | pkg/config/config.go:190-222 | The configuration read from the environment can never fail the host, user, database or migrations-path "is required" checks, because an empty variable gives its non-empty default. The server and telemetry sections always carry the same log level. |
| Config.LoadConfig | pkg/config/config.go:164-230 | Success exactly when the configuration built from the environment validates. Otherwise the error wraps the validation error. |
| Config.DefaultsLoad | pkg/config/config.go:190-222 | With an empty environment, every default passes validation. |
| Telemetry.GetEnv | pkg/telemetry/telemetry.go:49-54 | Any set value wins, even the empty one; the fallback only when unset. |
| Telemetry.GetEnvAsInt | pkg/telemetry/telemetry.go:56-63 | The parsed value when set and parsable, the fallback otherwise. |
| Telemetry.GetEnvAsBool | pkg/telemetry/telemetry.go:65-72 | The parsed value when set and parsable, the fallback otherwise. |
| Telemetry.EnvHelpersCompared | pkg/telemetry/telemetry.go:49-72 | Against the config package's helpers: the string helpers differ exactly on a variable set to "" with a non-empty fallback. The int and bool helpers agree everywhere. |
| Telemetry.DefaultConfig | pkg/telemetry/telemetry.go:33-46 | The fallbacks for an empty environment. Any accepted spelling of false disables tracing. |
| Telemetry.LastError | pkg/telemetry/telemetry.go:111-122 | The error returned is one of the step results, and a failure of the final step is always the one returned. |
| Telemetry.LastErrorSpec | pkg/telemetry/telemetry.go:107-120 | No error exactly when no step failed. Otherwise the error is the latest failure, and every later step succeeded. |
| Telemetry.Process.Setup | pkg/telemetry/telemetry.go:74-124 | The exact sequence of effects for each stage outcome. A shutdown is returned exactly when there is no error. On failure, everything started is shut down again; on success, tracer and meter each run once more. |
| Telemetry.Process.SetupAfterTracing | pkg/telemetry/telemetry.go:89-123 | The metrics and logging stages. A metrics failure shuts the tracer down; a logging failure shuts down the tracer, then the meter. Success returns both shutdowns. |
| Telemetry.Process.SetupLoggingStage | pkg/telemetry/telemetry.go:97-123 | A logging failure shuts both providers down, the tracer first. Success hands back the composed shutdown. |
| Telemetry.Process.RunShutdown | pkg/telemetry/telemetry.go:106-122 | Both shutdowns always run, tracer then meter, and each failure is logged. Returns the last failure, and each provider runs once less. |
| Telemetry.ShutdownErrorChoice | pkg/telemetry/telemetry.go:108-120 | No error exactly when both shutdowns succeed. A meter failure hides a tracer failure. |
| TelemetryLogging.CorrelatedShape | pkg/telemetry/logging.go:25-46 | With a valid span: the trace prefix goes before the format, and the trace ID, span ID and original arguments follow. Otherwise format and arguments pass through unchanged. |
| TelemetryLogging.LogWithContext | pkg/telemetry/logging.go:25-46 | The array-filling loop builds exactly the call `Correlated` describes. |
| TelemetryLogging.StdLog.SetupLogging | pkg/telemetry/logging.go:12-22 | Date, time, microseconds and short file name on standard output; it never fails. |
| TelemetryMiddleware.ResponseWriter.constructor | pkg/telemetry/middleware.go:54 | Wraps the writer with status 200 and size 0. |
| TelemetryMiddleware.ResponseWriter.SetHeader | pkg/telemetry/middleware.go:14-18 | `Header().Set` passes straight through to the embedded writer, under the canonical name. |
| TelemetryMiddleware.ResponseWriter.WriteHeader | pkg/telemetry/middleware.go:21-24 | Records the code and forwards it. Nothing else changes. |
| TelemetryMiddleware.ResponseWriter.Write | pkg/telemetry/middleware.go:27-31 | Forwards the bytes and adds the count the connection reports, 0 on a closed connection. |
| TelemetryMiddleware.ServeThrough | pkg/telemetry/middleware.go:66 | The handler's calls reach the connection unchanged. The captured status is the last one written, and the size grows by the bytes accepted. |
| TelemetryMiddleware.StatusOfSpan | pkg/telemetry/middleware.go:89-94 | Error, with the status text, exactly for codes of 400 or more; Ok otherwise. |
| TelemetryMiddleware.Instruments.Middleware | pkg/telemetry/middleware.go:34-100 | With the OpenTelemetry instruments created: the gauge is up by one while the handler runs and back afterwards. The middleware records one counter increment labelled method/path/final status, one duration observation, an OpenTelemetry decrement without an increment, and a span with the captured status and size. A started line is logged before the handler and a completed line after. Without them (metrics disabled): the same Prometheus count and duration, then a panic at line 76. The gauge stays one higher, the span ends with its start attributes and no status, and no completed line is logged. In both cases the writer sees exactly the handler's calls. |
| TelemetryMiddleware.Instruments.constructor | pkg/telemetry/prometheus.go:107-111 | Empty instruments; `otelReady` records whether the metrics stage created the OpenTelemetry instruments, which it skips when metrics are disabled. |
| TelemetryMiddleware.Instruments.Begin | pkg/telemetry/middleware.go:57-66 | The gauge goes up, then the started line is logged, then the handler runs. |
| TelemetryMiddleware.Instruments.Finish | pkg/telemetry/middleware.go:68-98 | The Prometheus count and duration for the captured status, always. Then, with the OpenTelemetry instruments: their metrics, the gauge decrement, the span attributes and status, and the completed line. Without them: the panic at line 76, with only the deferred `span.End()` after it. |
| TelemetryMiddleware.SilentHandlerIsOk | pkg/telemetry/middleware.go:54 | A handler that writes no status is recorded as 200, and its span is Ok. |
| Logger.LevelName | pkg/logger/logger.go:41-56 | The five named levels have their names; any other level is UNKNOWN. |
| Logger.ColorFor | pkg/logger/logger.go:59-74 | The five levels' colours; Reset for any other level. |
| Logger.NamesAndColorsDistinct | pkg/logger/logger.go:41-74 | Different named levels have different names and different colours. |
| Logger.LineStartsWithTagAndMessage | pkg/logger/logger.go:123-130 | Every text handed to `Printf` begins with the bracketed level tag and the message, whatever the field order. The printed line also carries the timestamp prefix, which is not modelled. |
| Logger.CopyFields | pkg/logger/logger.go:166 | The loop gives the union of the maps, with the source's values winning. |
| Logger.FieldsSuffix | pkg/logger/logger.go:115-121 | The loop visits every field exactly once and appends " k=v" for each, in the visiting order. The suffix is empty exactly when there are no fields. |
| Logger.SimpleLogger.constructor | pkg/logger/logger.go:94-104 | A nil writer means standard output; no fields. |
| Logger.SimpleLogger.Log | pkg/logger/logger.go:107-136 | Below the logger's level, nothing is written. Otherwise exactly one line: tag, message and every field once. A written Fatal line exits with code 1. |
| Logger.SimpleLogger.WithField | pkg/logger/logger.go:158-169 | A new logger with the same level, output and colours, and the fields plus the new one. The parent is untouched. |
| Logger.SimpleLogger.WithFields | pkg/logger/logger.go:171-183 | As `WithField`, with every extra field overriding the parent's. |
| Logger.SimpleLogger.EnableColors | pkg/logger/logger.go:186-188 | Sets the colour flag; the fields are unchanged. |
| Domain.Chain | services/product-service/internal/infrastructure/api/product_handler.go:95 | The unwrap chain starts with the error itself. |
| Domain.IsIffInChain | services/product-service/internal/infrastructure/api/product_handler.go:95 | `errors.Is` holds exactly when the target occurs in the unwrap chain. |
| Domain.Product.constructor | services/product-service/internal/domain/product.go:18-27 | Every field holds the given value. |
| Domain.Product.UpdatePrice | services/product-service/internal/domain/product.go:29-37 | A negative price is refused with the invalid-price error and changes nothing. Any other price, zero included, is stored and refreshes the update time. No other field changes. |
| Application.ProductService.constructor | services/product-service/internal/application/product_service.go:17-22 | The service holds the given repository. |
| Application.ProductService.GetByID | services/product-service/internal/application/product_service.go:24-26 | One repository call; its answer is returned. |
| Application.ProductService.CategoryExists | services/product-service/internal/application/product_service.go:28-30 | One repository call; its answer is returned. |
| Application.ProductService.GetAll | services/product-service/internal/application/product_service.go:32-34 | One repository call with the same limit and offset; its answer is returned. |
| Application.ProductService.Create | services/product-service/internal/application/product_service.go:36-46 | A product without a name is refused before the repository is called. A Nil ID becomes the new ID and a set ID is kept. The repository's answer is returned, and no other field changes. |
| Application.ProductService.Update | services/product-service/internal/application/product_service.go:48-50 | One repository call; its answer is returned. |
| Application.ProductService.Delete | services/product-service/internal/application/product_service.go:52-54 | One repository call; its answer is returned. |
| Application.ProductService.GetByCategory | services/product-service/internal/application/product_service.go:56-58 | One repository call; its answer is returned. |
| Application.ProductService.Search | services/product-service/internal/application/product_service.go:60-62 | One repository call; its answer is returned. |
| Validator.Validator.constructor | services/product-service/internal/infrastructure/validator/validator.go:19-23 | No errors. |
| Validator.Validator.Valid | services/product-service/internal/infrastructure/validator/validator.go:25-27 | Valid exactly when no message has been recorded. |
| Validator.Validator.AddError | services/product-service/internal/infrastructure/validator/validator.go:29-31 | Exactly one entry is appended; earlier entries are kept. |
| Validator.Validator.Check | services/product-service/internal/infrastructure/validator/validator.go:33-37 | The message is added exactly when the condition is false. |
| Validator.Validator.Required | services/product-service/internal/infrastructure/validator/validator.go:39-43 | "<field> is required" is added exactly for an empty value. |
| Validator.Validator.MinValue | services/product-service/internal/infrastructure/validator/validator.go:45-49 | "<field> must be greater than <min>" is added exactly when the value is below the minimum. |
| Validator.Validator.ValidUUID | services/product-service/internal/infrastructure/validator/validator.go:51-65 | Empty: "required", Nil and false. Unparsable: "not a valid uuid", Nil and false. Parsable: its UUID and true, with no new entry. |
| Validator.Validator.ErrorMessage | services/product-service/internal/infrastructure/validator/validator.go:67-73 | All messages, in the order they were added, joined by ", ". |
| ApiDto.Validate | services/product-service/internal/infrastructure/api/dto.go:20-33 | Appends the entries of the five checks, in order. Returns the parsed category, or Nil. |
| ApiDto.ValidateText | services/product-service/internal/infrastructure/api/dto.go:21-23 | The three required-field checks, in order. |
| ApiDto.ValidateCategory | services/product-service/internal/infrastructure/api/dto.go:29-31 | The category check alone: "required" for an empty ID, "not a valid uuid" for an unparsable one, otherwise no entry; it returns the parsed ID or Nil. |
| ApiDto.RequestErrorsEmptyIff | services/product-service/internal/infrastructure/api/dto.go:20-33 | No error exactly when name, description and SKU are set, the price is at least 0.01 and the category parses. A low price always adds the price entry. |
| ApiDto.RequestErrorsInFieldOrder | services/product-service/internal/infrastructure/api/dto.go:20-33 | Entries appear in the order name, description, sku, price, category_id, each field at most once. |
| ApiDto.ToModel | services/product-service/internal/infrastructure/api/dto.go:38-53 | Fails exactly when the category does not parse. Otherwise a fresh product with the request's fields, a Nil ID and both timestamps. |
| ApiDto.ProductResponseFromModel | services/product-service/internal/infrastructure/api/dto.go:67-78 | Every field of the product appears, with the IDs and times formatted. |
| ApiResponse.StatusMessage | services/product-service/internal/infrastructure/api/response.go:16-27 | The table's message for the ten listed codes, "Success" for any other. |
| ApiResponse.NewPagination | services/product-service/internal/infrastructure/api/response.go:54-68 | Copies page, size and count. A previous page exists exactly after page 1, and a next page exactly before the last. |
| ApiResponse.TotalPagesIsCeiling | services/product-service/internal/infrastructure/api/response.go:56-60 | For a positive size, the page count is the least number of pages holding every item. |
| ApiResponse.Envelope | services/product-service/internal/infrastructure/api/response.go:73-94 | Type "error" exactly from 400 up. The payload goes in `errors` there and in `data` below, and the message follows the status table. |
| ApiResponse.JSONOps | services/product-service/internal/infrastructure/api/response.go:96-109 | The JSON content type, then the code and the encoded envelope; 500 and a fixed body when encoding fails. |
| ApiResponse.RespondWithJSON | services/product-service/internal/infrastructure/api/response.go:71-110 | The writer receives exactly the calls of `JSONOps`. |
| ApiResponse.RespondWithError | services/product-service/internal/infrastructure/api/response.go:113-115 | The JSON response with a message payload. |
| ApiResponse.RespondWithValidationErrors | services/product-service/internal/infrastructure/api/response.go:118-120 | The JSON response with status 400 and the errors. |
| ApiResponse.RespondWithPagination | services/product-service/internal/infrastructure/api/response.go:123-130 | The JSON response with status 200, the items and their pagination. |
| ApiResponse.JSONStatus | services/product-service/internal/infrastructure/api/response.go:96-109 | The client sees the requested code when encoding succeeds and 500 otherwise, exactly one status either way. |
| ApiQueryParams.DefaultParams | services/product-service/internal/infrastructure/api/query_params.go:26-34 | Page 1 of 10, sorted by id ascending, no filter. |
| ApiQueryParams.ParseQueryParams | services/product-service/internal/infrastructure/api/query_params.go:37-80 | Gives exactly the parameters `ParamsOf` describes for the query. |
| ApiQueryParams.FilterFrom | services/product-service/internal/infrastructure/api/query_params.go:67-77 | The map loop builds one entry per key with values, the values joined by ",". |
| ApiQueryParams.EmptyQueryIsDefault | services/product-service/internal/infrastructure/api/query_params.go:37-80 | An empty query gives exactly the defaults. |
| ApiQueryParams.PageAndSizePositive | services/product-service/internal/infrastructure/api/query_params.go:42-55 | Page and size are at least 1 and fit a 64-bit int. A non-default value is the parse of the query text. |
| ApiQueryParams.PositiveValuesTaken | services/product-service/internal/infrastructure/api/query_params.go:42-55 | Every positive 64-bit page and size written in decimal is taken as is. |
| ApiQueryParams.SortAndOrder | services/product-service/internal/infrastructure/api/query_params.go:57-65 | The sort key changes only for a non-empty value. The order is descending exactly for "desc". |
| ApiQueryParams.FilterEntries | services/product-service/internal/infrastructure/api/query_params.go:67-77 | An entry exists exactly for the keys with a value. A single value is kept as is, and several are joined in order. |
| ApiQueryParams.GetOffsetAsWritten | services/product-service/internal/infrastructure/api/query_params.go:83-85 | The 64-bit wrapped product. It is exact whenever the product fits. |
| ApiQueryParams.OffsetAsWrittenGoesNegative | services/product-service/internal/infrastructure/api/query_params.go:83-85 | Every accepted page above 2^62 with size 2 gives a negative offset. |
| ApiQueryParams.OffsetAndLimit | services/product-service/internal/infrastructure/api/query_params.go:83-90 | For parsed parameters: the offset is non-negative, the limit is the page size, and together they reach the end of the page. |
| ApiMiddleware.ContentTypeJson | services/product-service/internal/infrastructure/api/middleware.go:18-23 | The JSON content type is set under its canonical name, then the next handler runs once on the same writer. |
| ApiMiddleware.RequestIDHeaderCanonical | services/product-service/internal/infrastructure/api/middleware.go:28 | `X-Request-ID` is stored and looked up as `X-Request-Id`. |
| ApiMiddleware.ChosenRequestID | services/product-service/internal/infrastructure/api/middleware.go:33-40 | The incoming ID (looked up by canonical name) if set, otherwise the generated one, "" when generation fails. |
| ApiMiddleware.IncomingIDKept | services/product-service/internal/infrastructure/api/middleware.go:33-40 | A request whose stored `X-Request-Id` header is non-empty keeps that ID, whatever the generator would have given. |
| ApiMiddleware.RequestID | services/product-service/internal/infrastructure/api/middleware.go:31-49 | The chosen ID goes into the response header, under the canonical name, and into the request context the next handler receives. |
| ApiMiddleware.RequestIDSeenTwice | services/product-service/internal/infrastructure/api/middleware.go:42-46 | Unless the handler sets the request-ID header under any spelling, the client sees the same ID the handler received. |
| ApiMiddleware.LevelForStatus | services/product-service/internal/infrastructure/api/middleware.go:96-102 | Info below 400, Warn for 4xx, Error from 500; each exactly. |
| ApiMiddleware.RequestLogTextStatus | services/product-service/internal/infrastructure/api/middleware.go:82-94 | In the request line built by `fmt.Sprintf`, the status reads back as the captured status. |
| ApiMiddleware.LoggerMiddleware | services/product-service/internal/infrastructure/api/middleware.go:72-106 | The next handler runs once behind a capturing writer. Then exactly one line, at the level its status selects, unless below the logger's level. It never exits. |
| ApiMiddleware.AllowOrigin | services/product-service/internal/infrastructure/api/middleware.go:113-116 | The configured origins, or "*" when none are configured. |
| ApiMiddleware.CorsKeysDistinct | services/product-service/internal/infrastructure/api/middleware.go:117-122 | The four CORS header names have four different canonical forms, so no `Set` overwrites another. |
| ApiMiddleware.CorsHeaders | services/product-service/internal/infrastructure/api/middleware.go:113-123 | The three CORS headers are set under their canonical names, credentials only when allowed, and every other header is unchanged. |
| ApiMiddleware.CORS | services/product-service/internal/infrastructure/api/middleware.go:109-136 | An OPTIONS request is answered with 200 and never reaches the handler. Any other request is passed on once. |
| ApiProductHandler.RespondRaw | services/product-service/internal/infrastructure/api/product_handler.go:62-63 | The writer receives the code, then the fixed body, without a content type. |
| ApiProductHandler.LookupFailureStatus | services/product-service/internal/infrastructure/api/product_handler.go:94-102 | 404 exactly when the error is or wraps not-found, 500 otherwise. |
| ApiProductHandler.WrappedNotFoundIs404 | services/product-service/internal/infrastructure/api/product_handler.go:95 | A not-found error is still answered 404 however deeply it is wrapped. |
| ApiProductHandler.CreateStatus | services/product-service/internal/infrastructure/api/product_handler.go:130-173 | 201 exactly for a created product. 500 exactly for lookup and store failures, 400 exactly for the rest. |
| ApiProductHandler.CreateOpsStatus | services/product-service/internal/infrastructure/api/product_handler.go:130-173 | Each outcome sends exactly one status: its own, or 500 when encoding fails. |
| ApiProductHandler.ConversionNeverFails | services/product-service/internal/infrastructure/api/product_handler.go:158-162 | The conversion-failure branch is unreachable: validation has already rejected an unparsable category. |
| ApiProductHandler.CreatedIff | services/product-service/internal/infrastructure/api/product_handler.go:130-173 | With a fresh validator, a product is created exactly when the body decodes, every field check passes, the category exists and the store succeeds. The field errors head every rejection. |
| ApiProductHandler.StaleErrorsRejectEveryRequest | services/product-service/internal/infrastructure/api/product_handler.go:141-156 | As written, once the shared validator holds an error, every later request whose body decodes and whose category lookup answers is rejected with 400, the stale errors first. An undecodable body still gets 400 and a failed lookup 500. |
| ApiProductHandler.NamelessRequestBlocksTheNext | services/product-service/internal/infrastructure/api/product_handler.go:141-156 | As written, a request without a name makes a later valid request, which would be created on its own, rejected. |
| ApiProductHandler.ProductHandler.constructor | services/product-service/internal/infrastructure/api/product_handler.go:23-29 | Holds the given service, validator and logger. |
| ApiProductHandler.ProductHandler.ListProducts | services/product-service/internal/infrastructure/api/product_handler.go:54-68 | One `GetAll` call with the parsed limit and the offset as Go computes it, wrapped to 64 bits. A failure logs its text, passed through `fmt` as a format, at Info and answers 500 with a fixed body. Otherwise 200 with the page and its pagination, and nothing logged. |
| ApiProductHandler.ProductHandler.GetProduct | services/product-service/internal/infrastructure/api/product_handler.go:82-117 | An unparsable ID answers 400 with no service call. Otherwise one lookup: a failure answers 404 or 500 with its fixed body, and a product answers 200 with its response view. |
| ApiProductHandler.ProductHandler.CreateProductAsWritten | services/product-service/internal/infrastructure/api/product_handler.go:130-173 | On the handler's shared validator, the response follows the decision that takes the validator's earlier errors into account; those errors remain. |
| ApiProductHandler.ProductHandler.CreateProduct | services/product-service/internal/infrastructure/api/product_handler.go:130-173 | With a fresh validator per request, the response and the repository calls follow the decision outcome. |
| ApiProductHandler.ProductHandler.CreateWith | services/product-service/internal/infrastructure/api/product_handler.go:130-173 | The response is that of the decision outcome. The calls, by outcome: no repository call when decoding fails; otherwise the category lookup, plus exactly one store under the new ID when the checks pass and the category converts. |
| ApiProductHandler.ProductHandler.RunChecks | services/product-service/internal/infrastructure/api/product_handler.go:141-151 | Validation, one category lookup, and the missing-category entry exactly when the lookup answers false. |
| ApiProductHandler.ProductHandler.Store | services/product-service/internal/infrastructure/api/product_handler.go:158-172 | Conversion failure answers 400 with no store. A store failure answers 500. Success answers 201 with the stored product. |
| ApiProductHandler.ProductHandler.ConvertAndCreate | services/product-service/internal/infrastructure/api/product_handler.go:158-170 | The outcome of converting and storing, with exactly one store call when the category converts. |

## Left out

- **I/O and the process.** Reading `.env` files and the working directory (`pkg/config/config.go:165-177`), `main.go`'s wiring, the servers and signal handling are not modelled, and neither is `os.Exit` beyond the exit code that `Log` returns.
- **Outside services.** The Postgres repository, database connections and migrations are not modelled: the repository is described by its answers.
- **Libraries behind parameters.** The tracing, Jaeger, OTLP and Prometheus set-up code (`tracing.go`, `jaeger.go`, `prometheus.go`, `metrics.go`) is not modelled. Its outcomes are parameters of `Setup`.
- **Time, IDs and JSON.** UUIDs, times and JSON encoding and decoding are parameters, not modelled in themselves.
- **Routing.** `RegisterRoutes` and the chi router are not modelled, and neither are the four handlers with empty bodies (`UpdateProduct`, `DeleteProduct`, `GetProductsByCategory`, `SearchProducts`, which write nothing).
- **The default logger.** The level wrappers `Debug` … `Fatal` only call `log` with a fixed level. The package-level default logger and its functions are not modelled either.
- **`fmt.Sprintf`.** It is not modelled.
  - Messages arrive already formatted, and a field value arrives as the text `%v` prints.
  - `ListProducts` and `LoggerMiddleware` pass a ready text to the logger as its format string. Go runs `fmt.Sprintf` on it again with no arguments, which rewrites any `%` sequence (for example, a query `q=a%20b` is logged as `q=a%!b(MISSING)`). The model takes that second pass as the parameter `formatBare`.
  - The telemetry log lines are kept as a format string plus arguments.
  - The request log line prints its duration as given text.
- **Floating point** is modelled as real numbers. The exact text of `%f` and of `%.6f` on a `Duration` is a parameter.
- **Concurrency.** The Prometheus gauge and counters are plain fields, so concurrent requests are not modelled.
- **Map iteration order.** It is not fixed. The logger's line holds some order of the fields, stated by an existential.
- Strings.ToLower: lowers ASCII letters only, since Unicode case mapping is not modelled.
- TelemetryLogging.StdLog.SetupLogging: takes no configuration argument, because the source ignores it.
- ApiQueryParams.GetOffset and ApiQueryParams.GetLimit have no contract of their own. Their meaning is stated by `OffsetAndLimit`. `GetOffset` is the corrected, exact offset; the list handler uses `GetOffsetAsWritten`, as Go does.
- ApiMiddleware.LoggerMiddleware: `formatBare` is a parameter. Which `%` sequences Go's second `fmt.Sprintf` pass rewrites, and into what, is not modelled.
- Logger.SimpleLogger.Log: `Output` holds the text given to `log.Logger.Printf`. The date and time prefix that `log.LstdFlags` puts before every printed line (`pkg/logger/logger.go:101`) is not modelled.
- Telemetry.Process.Setup: the logging stage's outcome is a free parameter. In the source `setupLogging` never fails (`pkg/telemetry/logging.go:12-22`, stated by `StdLog.SetupLogging`), so the `LoggingSetupFailed` branch is dead code there, modelled as the source writes it.
- TelemetryMiddleware.Instruments.Middleware: the nil-instrument panic ends the request as the `Panicked` event. What `net/http` does with it afterwards (logging it and closing the connection) is not modelled.

## Findings

| source | as written | input that shows it | evidently intended | confidence | as-written member | corrected member |
|---|---|---|---|---|---|---|
| services/product-service/internal/infrastructure/api/product_handler.go:141-156 | Every request validates into the one validator the handler was built with (`main.go` passes a single `validator.New()`), and its errors are never cleared. | A request with an empty `name`, then a fully valid request whose category exists: the second is answered 400 with the first request's error. | A fresh validator per request, so only the request's own errors decide. | not executed | ApiProductHandler.NamelessRequestBlocksTheNext | ApiProductHandler.CreatedIff |
| services/product-service/internal/infrastructure/api/query_params.go:83-85 | `(Page - 1) * PerPage` in 64-bit `int`. Any page up to the int64 maximum is accepted, so the product can wrap around. | `page=4611686018427387905&perPage=2` gives a negative offset. | A non-negative offset counting the items on the earlier pages. | not executed | ApiQueryParams.OffsetAsWrittenGoesNegative | ApiQueryParams.OffsetAndLimit |
