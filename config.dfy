/**
 * Application configuration (pkg/config): the DB and server settings, their ordered validation,
 * the environment-variable helpers with defaults, and the DSN and listen-address formatting.
 * The process environment is a map from variable name to value; a name absent from the map is unset.
 */
module Config {
  import opened Wrappers
  import opened Strconv
  import Strings

  type Env = map<string, string>

  datatype DBError =
    | DBHostIsRequired
    | DBPortInvalid
    | DBUserIsRequired
    | DBDatabaseIsRequired
    | MigrationsPathRequired
    | InvalidSSLMode(mode: string)

  datatype ServerError = ServerPortInvalid | ServerTimeoutInvalid | LogLevelInvalid

  /** `Config.Validate` wraps the failing part's error with "database config: " or "server config: ". */
  datatype ConfigError = DatabaseConfig(db: DBError) | ServerConfig(server: ServerError)

  /** `LoadConfig` wraps a validation failure with "invalid configuration: ". */
  datatype LoadError = InvalidConfiguration(cause: ConfigError)

  function DBErrorText(e: DBError): string {
    match e
    case DBHostIsRequired => "database host is required"
    case DBPortInvalid => "database port must be between 1 and 65535"
    case DBUserIsRequired => "database user is required"
    case DBDatabaseIsRequired => "database name is required"
    case MigrationsPathRequired => "migrations path is required"
    case InvalidSSLMode(mode) => "invalid SSL mode: " + mode
  }

  function ServerErrorText(e: ServerError): string {
    match e
    case ServerPortInvalid => "server port must be a valid number"
    case ServerTimeoutInvalid => "server timeout must be positive"
    case LogLevelInvalid => "log level must be one of: debug, info, warn, error"
  }

  function ConfigErrorText(e: ConfigError): string {
    match e
    case DatabaseConfig(d) => "database config: " + DBErrorText(d)
    case ServerConfig(s) => "server config: " + ServerErrorText(s)
  }

  const Development: string := "development"
  const Testing: string := "testing"
  const Production: string := "production"

  datatype DBConfig = DBConfig(
    host: string,
    port: string,
    user: string,
    password: string,
    database: string,
    sslMode: string,
    migrationsPath: string)

  datatype ServerSettings = ServerSettings(
    port: string,
    timeout: int,
    logLevel: string,
    allowedOrigins: string,
    allowedMethods: string,
    allowedHeaders: string,
    allowCredentials: bool,
    maxAge: int)

  datatype TelemetrySettings = TelemetrySettings(
    enabled: bool,
    serviceName: string,
    serviceVersion: string,
    otlpEndpoint: string,
    jaegerEndpoint: string,
    metricsEnabled: bool,
    metricsPort: int,
    prometheusPath: string,
    logLevel: string)

  datatype AppConfig = AppConfig(
    env: string,
    db: DBConfig,
    server: ServerSettings,
    telemetry: TelemetrySettings)

  // ---------------------------------------------------------------------------
  // Ordered checks

  /** One validation step: whether it passes, and the error it reports when it does not. */
  datatype Check<E> = Check(passes: bool, error: E)

  /** The error of the first failing check, or None when every check passes. */
  function FirstFailure<E>(checks: seq<Check<E>>): Option<E> {
    if checks == [] then None
    else if !checks[0].passes then Some(checks[0].error)
    else FirstFailure(checks[1..])
  }

  /** `FirstFailure` reports nothing exactly when every check passes. */
  lemma {:induction false} FirstFailureNoneIff<E>(checks: seq<Check<E>>)
    ensures FirstFailure(checks) == None <==> forall i | 0 <= i < |checks| :: checks[i].passes
  {
    if checks != [] {
      FirstFailureNoneIff(checks[1..]);
      if checks[0].passes {
        assert forall i | 1 <= i < |checks| :: checks[i].passes == checks[1..][i - 1].passes;
      }
    }
  }

  /** A failing check whose predecessors all pass decides the error, whatever the checks after it say. */
  lemma {:induction false} FirstFailureAt<E>(checks: seq<Check<E>>, i: nat)
    requires i < |checks| && !checks[i].passes
    requires forall j | 0 <= j < i :: checks[j].passes
    ensures FirstFailure(checks) == Some(checks[i].error)
  {
    if i > 0 {
      FirstFailureAt(checks[1..], i - 1);
    }
  }

  // ---------------------------------------------------------------------------
  // DBConfig.Validate, ServerConfig.Validate, Config.Validate

  /** The port text parses as an integer in [1, 65535]. */
  predicate PortInRange(s: string) {
    Atoi(s).Some? && 1 <= Atoi(s).value <= 65535
  }

  const ValidSSLModes: set<string> := {"disable", "require", "verify-ca", "verify-full"}
  const ValidLogLevels: set<string> := {"debug", "info", "warn", "error"}

  /** The DB checks in the order `DBConfig.Validate` makes them. */
  function DBChecks(c: DBConfig): seq<Check<DBError>> {
    [ Check(c.host != "", DBHostIsRequired),
      Check(PortInRange(c.port), DBPortInvalid),
      Check(c.user != "", DBUserIsRequired),
      Check(c.database != "", DBDatabaseIsRequired),
      Check(c.migrationsPath != "", MigrationsPathRequired),
      Check(c.sslMode in ValidSSLModes, InvalidSSLMode(c.sslMode)) ]
  }

  /** Every DB setting is acceptable. */
  predicate IsValidDB(c: DBConfig) {
    && c.host != ""
    && PortInRange(c.port)
    && c.user != ""
    && c.database != ""
    && c.migrationsPath != ""
    && c.sslMode in ValidSSLModes
  }

  /** `DBConfig.Validate`: early returns, one per setting. */
  function ValidateDB(c: DBConfig): (r: Option<DBError>)
    ensures r == None <==> IsValidDB(c)
  {
    if c.host == "" then Some(DBHostIsRequired)
    else if !PortInRange(c.port) then Some(DBPortInvalid)
    else if c.user == "" then Some(DBUserIsRequired)
    else if c.database == "" then Some(DBDatabaseIsRequired)
    else if c.migrationsPath == "" then Some(MigrationsPathRequired)
    else if c.sslMode !in ValidSSLModes then Some(InvalidSSLMode(c.sslMode))
    else None
  }

  /** The server checks in the order `ServerConfig.Validate` makes them. */
  function ServerChecks(s: ServerSettings): seq<Check<ServerError>> {
    [ Check(PortInRange(s.port), ServerPortInvalid),
      Check(s.timeout > 0, ServerTimeoutInvalid),
      Check(Strings.ToLower(s.logLevel) in ValidLogLevels, LogLevelInvalid) ]
  }

  predicate IsValidServer(s: ServerSettings) {
    PortInRange(s.port) && s.timeout > 0 && Strings.ToLower(s.logLevel) in ValidLogLevels
  }

  /** `ServerConfig.Validate`. */
  function ValidateServer(s: ServerSettings): (r: Option<ServerError>)
    ensures r == None <==> IsValidServer(s)
  {
    if !PortInRange(s.port) then Some(ServerPortInvalid)
    else if s.timeout <= 0 then Some(ServerTimeoutInvalid)
    else if Strings.ToLower(s.logLevel) !in ValidLogLevels then Some(LogLevelInvalid)
    else None
  }

  /**
   * `DBConfig.Validate` reports the error of the first failing check of `DBChecks`: the checks run
   * in a fixed order and a later check cannot mask an earlier one.
   */
  lemma ValidateDBIsFirstFailure(c: DBConfig)
    ensures ValidateDB(c) == FirstFailure(DBChecks(c))
  {
    var checks := DBChecks(c);
    if c.host == "" {
      FirstFailureAt(checks, 0);
    } else if !PortInRange(c.port) {
      FirstFailureAt(checks, 1);
    } else if c.user == "" {
      FirstFailureAt(checks, 2);
    } else if c.database == "" {
      FirstFailureAt(checks, 3);
    } else if c.migrationsPath == "" {
      FirstFailureAt(checks, 4);
    } else if c.sslMode !in ValidSSLModes {
      FirstFailureAt(checks, 5);
    } else {
      FirstFailureNoneIff(checks);
    }
  }

  /** `ServerConfig.Validate` reports the error of the first failing check of `ServerChecks`. */
  lemma ValidateServerIsFirstFailure(s: ServerSettings)
    ensures ValidateServer(s) == FirstFailure(ServerChecks(s))
  {
    var checks := ServerChecks(s);
    if !PortInRange(s.port) {
      FirstFailureAt(checks, 0);
    } else if s.timeout <= 0 {
      FirstFailureAt(checks, 1);
    } else if Strings.ToLower(s.logLevel) !in ValidLogLevels {
      FirstFailureAt(checks, 2);
    } else {
      FirstFailureNoneIff(checks);
    }
  }

  /** `Config.Validate`: the DB part first, then the server part. */
  function Validate(c: AppConfig): (r: Option<ConfigError>)
    ensures r == None <==> IsValidDB(c.db) && IsValidServer(c.server)
    ensures !IsValidDB(c.db) ==> r.Some? && r.value.DatabaseConfig?
    ensures IsValidDB(c.db) && !IsValidServer(c.server) ==> r.Some? && r.value.ServerConfig?
    ensures r.Some? && r.value.DatabaseConfig? ==> Some(r.value.db) == ValidateDB(c.db)
    ensures r.Some? && r.value.ServerConfig? ==> Some(r.value.server) == ValidateServer(c.server)
  {
    match ValidateDB(c.db)
    case Some(e) => Some(DatabaseConfig(e))
    case None =>
      match ValidateServer(c.server)
      case Some(e) => Some(ServerConfig(e))
      case None => None
  }

  /** An empty host is reported even when the port is bad as well: the order of the checks decides. */
  lemma HostCheckedBeforePort(c: DBConfig)
    requires c.host == ""
    ensures ValidateDB(c) == Some(DBHostIsRequired)
    ensures Validate(AppConfig(Production, c, ServerSettings("", 0, "", "", "", "", false, 0), DefaultTelemetry(map[])))
              == Some(DatabaseConfig(DBHostIsRequired))
  {
  }

  /** `ServerConfig.Validate` accepts the log level in any ASCII letter case. */
  lemma LogLevelCaseInsensitive(s: ServerSettings, level: string)
    requires PortInRange(s.port) && s.timeout > 0
    requires Strings.ToLower(level) == Strings.ToLower(s.logLevel)
    ensures ValidateServer(s.(logLevel := level)) == ValidateServer(s)
  {
  }

  // ---------------------------------------------------------------------------
  // Formatting

  /** `DBConfig.GetDSN`: the field values are inserted as they are, with no URL escaping. */
  function GetDSN(c: DBConfig): (dsn: string)
    ensures |dsn| >= |"postgres://"| && dsn[..|"postgres://"|] == "postgres://"
    ensures var tail := "?sslmode=" + c.sslMode; |dsn| >= |tail| && dsn[|dsn| - |tail|..] == tail
  {
    "postgres://" + c.user + ":" + c.password + "@" + c.host + ":" + c.port + "/" + c.database
      + "?sslmode=" + c.sslMode
  }

  /** Split `s` at its first `c`; None when `c` does not occur. */
  function Cut(s: string, c: char): Option<(string, string)> {
    if c in s then
      var i := Strings.IndexOf(s, c);
      Some((s[..i], s[i + 1..]))
    else None
  }

  lemma CutAfterPrefix(a: string, c: char, b: string)
    requires c !in a
    ensures Cut(a + [c] + b, c) == Some((a, b))
  {
    Strings.FirstIndexAfterPrefix(a, b, c);
    var s := a + [c] + b;
    assert s[..|a|] == a;
    assert s[|a| + 1..] == b;
  }

  /** Read the connection settings back out of a DSN of the shape `GetDSN` prints. */
  function ParseDSN(dsn: string): Option<DBConfig> {
    var scheme := "postgres://";
    if |dsn| < |scheme| || dsn[..|scheme|] != scheme then None else ParseUser(dsn[|scheme|..])
  }

  function ParseUser(s: string): Option<DBConfig> {
    match Cut(s, ':')
    case None => None
    case Some((user, rest)) => ParsePassword(user, rest)
  }

  function ParsePassword(user: string, s: string): Option<DBConfig> {
    match Cut(s, '@')
    case None => None
    case Some((password, rest)) => ParseHost(user, password, rest)
  }

  function ParseHost(user: string, password: string, s: string): Option<DBConfig> {
    match Cut(s, ':')
    case None => None
    case Some((host, rest)) => ParsePort(user, password, host, rest)
  }

  function ParsePort(user: string, password: string, host: string, s: string): Option<DBConfig> {
    match Cut(s, '/')
    case None => None
    case Some((port, rest)) => ParseDatabase(user, password, host, port, rest)
  }

  function ParseDatabase(user: string, password: string, host: string, port: string, s: string): Option<DBConfig> {
    match Cut(s, '?')
    case None => None
    case Some((database, rest)) =>
      var key := "sslmode=";
      if |rest| < |key| || rest[..|key|] != key then None
      else Some(DBConfig(host, port, user, password, database, rest[|key|..], ""))
  }

  /**
   * The DSN determines the connection settings, as long as no field contains the delimiter that
   * ends it (`GetDSN` does not escape them).
   */
  lemma DSNRoundTrip(c: DBConfig)
    requires ':' !in c.user && '@' !in c.password && ':' !in c.host && '/' !in c.port && '?' !in c.database
    ensures ParseDSN(GetDSN(c)) == Some(c.(migrationsPath := ""))
  {
    var scheme := "postgres://";
    var r5 := "sslmode=" + c.sslMode;
    var r4 := c.database + "?" + r5;
    var r3 := c.port + "/" + r4;
    var r2 := c.host + ":" + r3;
    var r1 := c.password + "@" + r2;
    var r0 := c.user + ":" + r1;
    var dsn := GetDSN(c);
    assert dsn == scheme + r0;
    assert dsn[..|scheme|] == scheme && dsn[|scheme|..] == r0;
    assert r5[..|"sslmode="|] == "sslmode=" && r5[|"sslmode="|..] == c.sslMode;
    CutAfterPrefix(c.database, '?', r5);
    assert ParseDatabase(c.user, c.password, c.host, c.port, r4) == Some(c.(migrationsPath := ""));
    CutAfterPrefix(c.port, '/', r4);
    assert ParsePort(c.user, c.password, c.host, r3) == Some(c.(migrationsPath := ""));
    CutAfterPrefix(c.host, ':', r3);
    assert ParseHost(c.user, c.password, r2) == Some(c.(migrationsPath := ""));
    CutAfterPrefix(c.password, '@', r2);
    assert ParsePassword(c.user, r1) == Some(c.(migrationsPath := ""));
    CutAfterPrefix(c.user, ':', r1);
    assert ParseUser(r0) == Some(c.(migrationsPath := ""));
  }

  /** `ServerConfig.GetAddr`: the listen address on every interface. */
  function GetAddr(s: ServerSettings): (addr: string)
    ensures |addr| == |s.port| + 1 && addr[0] == ':' && addr[1..] == s.port
  {
    ":" + s.port
  }

  function InProduction(c: AppConfig): (r: bool)
    ensures r <==> c.env == Production
  {
    c.env == "production"
  }

  // ---------------------------------------------------------------------------
  // Environment helpers

  /** `GetEnv`: `os.Getenv` reads an unset variable as "", and "" falls back to the default. */
  function GetEnv(env: Env, key: string, default: string): (r: string)
    ensures key in env && env[key] != "" ==> r == env[key]
    ensures (key !in env || env[key] == "") ==> r == default
    ensures default != "" ==> r != ""
  {
    var value := if key in env then env[key] else "";
    if value == "" then default else value
  }

  /** `getEnvAsInt`: the default unless the variable is set and `strconv.Atoi` accepts it. */
  function GetEnvAsInt(env: Env, key: string, default: int): (r: int)
    ensures key in env && Atoi(env[key]).Some? ==> r == Atoi(env[key]).value
    ensures key !in env || Atoi(env[key]).None? ==> r == default
  {
    if key in env && Atoi(env[key]).Some? then Atoi(env[key]).value else default
  }

  /** `getEnvAsBool`: the default unless the variable is set and `strconv.ParseBool` accepts it. */
  function GetEnvAsBool(env: Env, key: string, default: bool): (r: bool)
    ensures key in env && ParseBool(env[key]).Some? ==> r == ParseBool(env[key]).value
    ensures key !in env || ParseBool(env[key]).None? ==> r == default
  {
    if key in env && ParseBool(env[key]).Some? then ParseBool(env[key]).value else default
  }

  /** A number written into the environment with `Itoa` is read back by `getEnvAsInt`. */
  lemma GetEnvAsIntReadsItoa(env: Env, key: string, n: int, default: int)
    requires GoInt.InInt64(n)
    ensures GetEnvAsInt(env[key := Itoa(n)], key, default) == n
  {
    AtoiItoa(n);
  }

  // ---------------------------------------------------------------------------
  // LoadConfig (the struct literal and the validation; reading .env files is not modelled)

  /**
   * The telemetry section of `LoadConfig`: every text setting has a non-empty default, so none of
   * them ends up empty, whatever the environment holds.
   */
  function DefaultTelemetry(env: Env): (t: TelemetrySettings)
    ensures t.serviceName != "" && t.serviceVersion != "" && t.otlpEndpoint != ""
    ensures t.jaegerEndpoint != "" && t.prometheusPath != "" && t.logLevel != ""
  {
    TelemetrySettings(
      GetEnvAsBool(env, "TELEMETRY_ENABLED", true),
      GetEnv(env, "SERVICE_NAME", "product-service"),
      GetEnv(env, "SERVICE_VERSION", "0.0.1"),
      GetEnv(env, "TELEMETRY_OTLP_ENDPOINT", "jaeger:4317"),
      GetEnv(env, "TELEMETRY_JAEGER_ENDPOINT", "http://jaeger:14268/api/traces"),
      GetEnvAsBool(env, "TELEMETRY_METRICS_ENABLED", true),
      GetEnvAsInt(env, "TELEMETRY_METRICS_PORT", 9090),
      GetEnv(env, "TELEMETRY_PROMETHEUS_PATH", "/metrics"),
      GetEnv(env, "LOG_LEVEL", "info"))
  }

  /**
   * The configuration `LoadConfig` builds from the environment, before validating it. Since an
   * empty variable counts as unset, the four "is required" database checks can never fail on it,
   * and the server and telemetry sections always get the same log level (both read LOG_LEVEL).
   */
  function ConfigFromEnv(env: Env): (c: AppConfig)
    ensures ValidateDB(c.db) != Some(DBHostIsRequired) && ValidateDB(c.db) != Some(DBUserIsRequired)
    ensures ValidateDB(c.db) != Some(DBDatabaseIsRequired) && ValidateDB(c.db) != Some(MigrationsPathRequired)
    ensures c.server.logLevel == c.telemetry.logLevel
  {
    AppConfig(
      GetEnv(env, "ENV", "development"),
      DBConfig(
        GetEnv(env, "DB_HOST", "localhost"),
        GetEnv(env, "DB_PORT", "5432"),
        GetEnv(env, "DB_USER", "postgres"),
        GetEnv(env, "DB_PASSWORD", "postgres"),
        GetEnv(env, "DB_DATABASE", "products"),
        GetEnv(env, "DB_SSLMODE", "disable"),
        GetEnv(env, "MIGRATIONS_PATH", "migrations")),
      ServerSettings(
        GetEnv(env, "SERVER_PORT", "8080"),
        GetEnvAsInt(env, "SERVER_TIMEOUT", 30),
        GetEnv(env, "LOG_LEVEL", "info"),
        GetEnv(env, "ALLOWED_ORIGINS", "*"),
        GetEnv(env, "ALLOWED_METHODS", "GET, POST, PUT, DELETE, OPTIONS"),
        GetEnv(env, "ALLOWED_HEADERS", "Content-Type, Authorization, X-Requested-With, X-Request-ID"),
        GetEnvAsBool(env, "ALLOW_CREDENTIALS", false),
        GetEnvAsInt(env, "MAX_AGE", 86400)),
      DefaultTelemetry(env))
  }

  /** `LoadConfig` without the file I/O: build the configuration, then reject it if it does not validate. */
  function LoadConfig(env: Env): (r: Result<AppConfig, LoadError>)
    ensures r.Success? <==> Validate(ConfigFromEnv(env)) == None
    ensures r.Success? ==> r.value == ConfigFromEnv(env)
    ensures r.Failure? ==> r.error == InvalidConfiguration(Validate(ConfigFromEnv(env)).value)
  {
    var cfg := ConfigFromEnv(env);
    match Validate(cfg)
    case Some(e) => Failure(InvalidConfiguration(e))
    case None => Success(cfg)
  }

  /** With nothing set in the environment the defaults load: they pass both validations. */
  lemma DefaultsLoad()
    ensures LoadConfig(map[]).Success?
  {
    var cfg := ConfigFromEnv(map[]);
    DefaultPortsParse();
    assert cfg.db == DBConfig("localhost", "5432", "postgres", "postgres", "products", "disable", "migrations");
    assert IsValidDB(cfg.db);
    assert Strings.ToLower("info") == "info";
    assert cfg.server.port == "8080" && cfg.server.timeout == 30 && cfg.server.logLevel == "info";
    assert IsValidServer(cfg.server);
  }

  /** The default database and server ports read as the numbers they spell. */
  lemma DefaultPortsParse()
    ensures Atoi("5432") == Some(5432) && Atoi("8080") == Some(8080)
  {
    assert "5432"[..3] == "543" && "543"[..2] == "54" && "54"[..1] == "5";
    assert DecimalValue("54") == 54;
    assert DecimalValue("5432") == 5432;
    assert "8080"[..3] == "808" && "808"[..2] == "80" && "80"[..1] == "8";
    assert DecimalValue("80") == 80;
    assert DecimalValue("8080") == 8080;
  }
}
