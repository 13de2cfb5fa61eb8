/**
 * Telemetry bootstrap (pkg/telemetry/telemetry.go): the telemetry configuration read from the
 * environment, and `Setup`, which starts the propagator, tracing, metrics and logging in that order,
 * rolls back what it started when a later stage fails, and hands back one composed shutdown.
 *
 * The tracing, metrics and logging stages are opaque library code. Each is modelled by its outcome:
 * it fails with a cause, or it starts and yields a shutdown function whose call reports a fixed
 * outcome. The process-wide effects (`otel.Set...`, the stage calls, the shutdown calls and the error
 * lines written with `log.Printf`) are appended, in order, to `Process.actions`.
 */
module Telemetry {
  import opened Wrappers
  import opened Strconv
  import Config

  type Env = map<string, string>

  datatype TelemetryConfig = TelemetryConfig(
    serviceName: string,
    serviceVersion: string,
    environment: string,
    tracingEnabled: bool,
    otlpEndpoint: string,
    jaegerEndpoint: string,
    metricsEnabled: bool,
    metricsPort: int,
    prometheusPath: string,
    logLevel: string)

  // ---------------------------------------------------------------------------
  // Environment helpers (`os.LookupEnv` based, unlike `config.GetEnv`)

  /** `getEnv`: the variable's value whenever it is set, even when that value is empty. */
  function GetEnv(env: Env, key: string, fallback: string): (r: string)
    ensures key in env ==> r == env[key]
    ensures key !in env ==> r == fallback
  {
    if key in env then env[key] else fallback
  }

  /** `getEnvAsInt`: the fallback unless the variable is set and parses as an `int`. */
  function GetEnvAsInt(env: Env, key: string, fallback: int): (r: int)
    ensures key in env && Atoi(env[key]).Some? ==> r == Atoi(env[key]).value
    ensures key !in env || Atoi(env[key]).None? ==> r == fallback
  {
    if key in env then
      match Atoi(env[key])
      case Some(n) => n
      case None => fallback
    else fallback
  }

  /** `getEnvAsBool`: the fallback unless the variable is set and parses as a bool. */
  function GetEnvAsBool(env: Env, key: string, fallback: bool): (r: bool)
    ensures key in env && ParseBool(env[key]).Some? ==> r == ParseBool(env[key]).value
    ensures key !in env || ParseBool(env[key]).None? ==> r == fallback
  {
    if key in env then
      match ParseBool(env[key])
      case Some(b) => b
      case None => fallback
    else fallback
  }

  /**
   * The two packages' string helpers differ on exactly one kind of input, a variable that is set to
   * the empty string; their int and bool helpers agree everywhere.
   */
  lemma EnvHelpersCompared(env: Env, key: string, fallback: string, n: int, b: bool)
    ensures GetEnv(env, key, fallback) != Config.GetEnv(env, key, fallback) <==>
              key in env && env[key] == "" && fallback != ""
    ensures GetEnvAsInt(env, key, n) == Config.GetEnvAsInt(env, key, n)
    ensures GetEnvAsBool(env, key, b) == Config.GetEnvAsBool(env, key, b)
  {
  }

  /** `DefaultConfig`: the telemetry configuration from the environment, with fallbacks. */
  function DefaultConfig(env: Env): (cfg: TelemetryConfig)
    ensures env == map[] ==> cfg == TelemetryConfig("unknown-service", "0.0.1", "development", true,
                                 "jaeger:4317", "http://jaeger:14268/api/traces", true, 9090, "/metrics", "info")
    ensures ("TELEMETRY_ENABLED" in env && env["TELEMETRY_ENABLED"] in {"0", "f", "F", "FALSE", "false", "False"})
              ==> !cfg.tracingEnabled
  {
    TelemetryConfig(
      GetEnv(env, "SERVICE_NAME", "unknown-service"),
      GetEnv(env, "SERVICE_VERSION", "0.0.1"),
      GetEnv(env, "ENV", "development"),
      GetEnvAsBool(env, "TELEMETRY_ENABLED", true),
      GetEnv(env, "TELEMETRY_OTLP_ENDPOINT", "jaeger:4317"),
      GetEnv(env, "TELEMETRY_JAEGER_ENDPOINT", "http://jaeger:14268/api/traces"),
      GetEnvAsBool(env, "TELEMETRY_METRICS_ENABLED", true),
      GetEnvAsInt(env, "TELEMETRY_METRICS_PORT", 9090),
      GetEnv(env, "TELEMETRY_PROMETHEUS_PATH", "/metrics"),
      GetEnv(env, "LOG_LEVEL", "info"))
  }

  // ---------------------------------------------------------------------------
  // Stages, shutdown and the process-wide effects

  /** What one stage's setup call did: failed with a cause, or started and yields a shutdown that reports `shutdownError`. */
  datatype StageResult = Started(shutdownError: Option<string>) | Failed(cause: string)

  /** `Setup`'s errors, wrapped as "failed to setup tracing: %w" and so on. */
  datatype SetupError =
    | TracingSetupFailed(cause: string)
    | MetricsSetupFailed(cause: string)
    | LoggingSetupFailed(cause: string)

  /** The composed shutdown's errors: "failed to shutdown tracer provider: %w" / "... meter provider: %w". */
  datatype ShutdownError = TracerShutdownFailed(cause: string) | MeterShutdownFailed(cause: string)

  datatype Subsystem = Tracer | Meter

  datatype Action =
    | SetPropagator          // otel.SetTextMapPropagator(TraceContext + Baggage)
    | SetupTracing(ok: bool) // setupJaegerTracing, and whether it returned a shutdown
    | SetTracerProvider      // otel.SetTracerProvider
    | SetupMetrics(ok: bool) // setupPrometheusMetrics
    | SetupLogging(ok: bool) // setupLogging
    | Shutdown(of: Subsystem)
    | Report(line: string)   // log.Printf of a shutdown error

  /** The closure `Setup` returns: it holds the tracer's and the meter provider's shutdown functions. */
  datatype ComposedShutdown = ComposedShutdown(tracer: Option<string>, metrics: Option<string>)

  /** How one action changes the number of running instances of `s`. */
  function Delta(x: Action, s: Subsystem): int {
    match x
    case SetupTracing(true) => if s == Tracer then 1 else 0
    case SetupMetrics(true) => if s == Meter then 1 else 0
    case Shutdown(t) => if s == t then -1 else 0
    case _ => 0
  }

  /** How many times `s` has been started minus how many times it has been shut down. */
  function Running(actions: seq<Action>, s: Subsystem): int {
    if actions == [] then 0
    else Running(actions[..|actions| - 1], s) + Delta(actions[|actions| - 1], s)
  }

  /** `Running` is additive over concatenation, so it can be computed piece by piece. */
  lemma {:induction false} RunningAppend(a: seq<Action>, b: seq<Action>, s: Subsystem)
    ensures Running(a + b, s) == Running(a, s) + Running(b, s)
    decreases |b|
  {
    if b == [] {
      assert a + b == a;
    } else {
      var b' := b[..|b| - 1];
      assert (a + b)[..|a + b| - 1] == a + b';
      assert (a + b)[|a + b| - 1] == b[|b| - 1];
      RunningAppend(a, b', s);
    }
  }

  /** The error the composed shutdown returns: each failure overwrites the one before, so the last one wins. */
  function LastError<E>(results: seq<Option<E>>): (r: Option<E>)
    ensures r.Some? ==> r in results
    ensures results != [] && results[|results| - 1].Some? ==> r == results[|results| - 1]
  {
    if results == [] then None
    else if results[|results| - 1].Some? then results[|results| - 1]
    else LastError(results[..|results| - 1])
  }

  /** `LastError` is None exactly when no call failed, and otherwise is the latest failure, so every earlier one is dropped. */
  lemma {:induction false} LastErrorSpec<E>(results: seq<Option<E>>)
    ensures LastError(results) == None <==> forall i | 0 <= i < |results| :: results[i] == None
    ensures LastError(results).Some? ==>
              exists i | 0 <= i < |results| :: results[i] == LastError(results)
                && forall j | i < j < |results| :: results[j] == None
  {
    if results != [] {
      var init := results[..|results| - 1];
      LastErrorSpec(init);
      if results[|results| - 1] == None && LastError(init).Some? {
        var i :| 0 <= i < |init| && init[i] == LastError(init) && forall j | i < j < |init| :: init[j] == None;
        assert results[i] == LastError(results);
      }
    }
  }

  function TracerError(s: ComposedShutdown): Option<ShutdownError> {
    match s.tracer
    case Some(e) => Some(TracerShutdownFailed(e))
    case None => None
  }

  function MeterError(s: ComposedShutdown): Option<ShutdownError> {
    match s.metrics
    case Some(e) => Some(MeterShutdownFailed(e))
    case None => None
  }

  class Process {
    var actions: seq<Action>

    constructor ()
      ensures actions == []
    {
      actions := [];
    }

    /**
     * `Setup`. On success both the tracer and the meter provider are running one more time than
     * before and their shutdowns are in the result; on any failure everything it started has been
     * shut down again, in the order the source calls them, and no shutdown is returned.
     */
    method Setup(cfg: TelemetryConfig, tracing: StageResult, metrics: StageResult, logging: Option<string>)
      returns (shutdown: Option<ComposedShutdown>, err: Option<SetupError>)
      modifies this
      ensures tracing.Failed? ==>
                && actions == old(actions) + [SetPropagator, SetupTracing(false)]
                && err == Some(TracingSetupFailed(tracing.cause))
      ensures tracing.Started? && metrics.Failed? ==>
                && actions == old(actions) + [SetPropagator, SetupTracing(true), SetTracerProvider,
                                              SetupMetrics(false), Shutdown(Tracer)]
                && err == Some(MetricsSetupFailed(metrics.cause))
      ensures tracing.Started? && metrics.Started? && logging.Some? ==>
                && actions == old(actions) + [SetPropagator, SetupTracing(true), SetTracerProvider,
                                              SetupMetrics(true), SetupLogging(false),
                                              Shutdown(Tracer), Shutdown(Meter)]
                && err == Some(LoggingSetupFailed(logging.value))
      ensures tracing.Started? && metrics.Started? && logging.None? ==>
                && actions == old(actions) + [SetPropagator, SetupTracing(true), SetTracerProvider,
                                              SetupMetrics(true), SetupLogging(true)]
                && shutdown == Some(ComposedShutdown(tracing.shutdownError, metrics.shutdownError))
                && err == None
      ensures shutdown.Some? <==> err.None?
      ensures err.Some? ==> forall s :: Running(actions, s) == Running(old(actions), s)
      ensures err.None? ==> forall s :: Running(actions, s) == Running(old(actions), s) + 1
    {
      Record(SetPropagator);
      if tracing.Failed? {
        Record(SetupTracing(false));
        shutdown, err := None, Some(TracingSetupFailed(tracing.cause));
      } else {
        Record(SetupTracing(true));
        Record(SetTracerProvider);
        shutdown, err := SetupAfterTracing(tracing.shutdownError, metrics, logging);
      }
    }

    /**
     * The metrics and logging stages of `Setup`, once the tracer provider is running: on a failure
     * the stages already started are shut down again, the tracer first.
     */
    method SetupAfterTracing(tracer: Option<string>, metrics: StageResult, logging: Option<string>)
      returns (shutdown: Option<ComposedShutdown>, err: Option<SetupError>)
      modifies this
      ensures metrics.Failed? ==>
                && actions == old(actions) + [SetupMetrics(false), Shutdown(Tracer)]
                && err == Some(MetricsSetupFailed(metrics.cause))
      ensures metrics.Started? && logging.Some? ==>
                && actions == old(actions) + [SetupMetrics(true), SetupLogging(false), Shutdown(Tracer), Shutdown(Meter)]
                && err == Some(LoggingSetupFailed(logging.value))
      ensures metrics.Started? && logging.None? ==>
                && actions == old(actions) + [SetupMetrics(true), SetupLogging(true)]
                && shutdown == Some(ComposedShutdown(tracer, metrics.shutdownError))
                && err == None
      ensures shutdown.Some? <==> err.None?
      ensures err.Some? ==> Running(actions, Tracer) == Running(old(actions), Tracer) - 1
      ensures err.Some? ==> Running(actions, Meter) == Running(old(actions), Meter)
      ensures err.None? ==> Running(actions, Tracer) == Running(old(actions), Tracer)
      ensures err.None? ==> Running(actions, Meter) == Running(old(actions), Meter) + 1
    {
      if metrics.Failed? {
        Record(SetupMetrics(false));
        Record(Shutdown(Tracer));
        shutdown, err := None, Some(MetricsSetupFailed(metrics.cause));
      } else {
        Record(SetupMetrics(true));
        shutdown, err := SetupLoggingStage(tracer, metrics.shutdownError, logging);
      }
    }

    /**
     * The logging stage of `Setup`, once tracer and meter providers are running: a failure shuts
     * both down again, the tracer first; success hands back the composed shutdown.
     */
    method SetupLoggingStage(tracer: Option<string>, meter: Option<string>, logging: Option<string>)
      returns (shutdown: Option<ComposedShutdown>, err: Option<SetupError>)
      modifies this
      ensures logging.Some? ==>
                && actions == old(actions) + [SetupLogging(false), Shutdown(Tracer), Shutdown(Meter)]
                && shutdown == None && err == Some(LoggingSetupFailed(logging.value))
      ensures logging.None? ==>
                && actions == old(actions) + [SetupLogging(true)]
                && shutdown == Some(ComposedShutdown(tracer, meter)) && err == None
      ensures logging.Some? ==> Running(actions, Tracer) == Running(old(actions), Tracer) - 1
      ensures logging.Some? ==> Running(actions, Meter) == Running(old(actions), Meter) - 1
      ensures logging.None? ==> forall t :: Running(actions, t) == Running(old(actions), t)
    {
      if logging.Some? {
        Record(SetupLogging(false));
        Record(Shutdown(Tracer));
        Record(Shutdown(Meter));
        shutdown, err := None, Some(LoggingSetupFailed(logging.value));
      } else {
        Record(SetupLogging(true));
        shutdown, err := Some(ComposedShutdown(tracer, meter)), None;
      }
    }

    /**
     * The composed shutdown. It always calls the tracer's shutdown and then the meter provider's,
     * whatever the first reports, logs each failure, and returns the last failure (None when both succeed).
     */
    method RunShutdown(s: ComposedShutdown) returns (err: Option<ShutdownError>)
      modifies this
      ensures actions == old(actions)
                + [Shutdown(Tracer)]
                + (if s.tracer.Some? then [Report("Error shutting down tracer provider: " + s.tracer.value)] else [])
                + [Shutdown(Meter)]
                + (if s.metrics.Some? then [Report("Error shutting down meter provider: " + s.metrics.value)] else [])
      ensures err == LastError([TracerError(s), MeterError(s)])
      ensures forall t :: Running(actions, t) == Running(old(actions), t) - 1
    {
      var shutdownErr: Option<ShutdownError> := None;
      Record(Shutdown(Tracer));
      if s.tracer.Some? {
        shutdownErr := Some(TracerShutdownFailed(s.tracer.value));
        Record(Report("Error shutting down tracer provider: " + s.tracer.value));
      }
      Record(Shutdown(Meter));
      if s.metrics.Some? {
        shutdownErr := Some(MeterShutdownFailed(s.metrics.value));
        Record(Report("Error shutting down meter provider: " + s.metrics.value));
      }
      err := shutdownErr;
      ShutdownErrorChoice(s);
    }

    /** Appends one process-wide effect. */
    method Record(x: Action)
      modifies this
      ensures actions == old(actions) + [x]
      ensures forall t :: Running(actions, t) == Running(old(actions), t) + Delta(x, t)
    {
      actions := actions + [x];
      assert actions[..|actions| - 1] == old(actions);
    }
  }

  /** The composed shutdown returns None exactly when both sub-shutdowns succeed, and a meter failure hides a tracer failure. */
  lemma ShutdownErrorChoice(s: ComposedShutdown)
    ensures LastError([TracerError(s), MeterError(s)]) == None <==> s.tracer.None? && s.metrics.None?
    ensures s.metrics.Some? ==> LastError([TracerError(s), MeterError(s)]) == Some(MeterShutdownFailed(s.metrics.value))
    ensures s.metrics.None? ==> LastError([TracerError(s), MeterError(s)]) == TracerError(s)
  {
    assert [TracerError(s), MeterError(s)][..1] == [TracerError(s)];
    assert [TracerError(s)][..0] == [];
    assert LastError([TracerError(s)]) == TracerError(s);
  }
}
