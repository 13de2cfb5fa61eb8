/**
 * Trace-correlated logging (pkg/telemetry/logging.go): `LogWithContext` rewrites a format string and
 * its argument list so that the line carries the trace and span IDs of the context's span, and
 * `setupLogging` configures the standard `log` package.
 *
 * `log.Printf` itself is not modelled: the result of `LogWithContext` is the call it makes, the
 * format string and the argument list.
 */
module TelemetryLogging {
  import opened Wrappers
  import opened Http

  /** A value passed through `...any`; `Nil` is the zero value a fresh `[]any` holds. */
  datatype Arg = Nil | Text(s: string) | Number(n: int) | Duration(nanos: int)

  /** One `log.Printf(format, args...)` call. */
  datatype LogCall = LogCall(format: string, args: seq<Arg>)

  const TracePrefix: string := "[trace_id=%s span_id=%s] "

  /** The call `LogWithContext` makes, as a value. */
  function Correlated(span: SpanContext, format: string, args: seq<Arg>): LogCall {
    if span.valid then LogCall(TracePrefix + format, [Text(span.traceID), Text(span.spanID)] + args)
    else LogCall(format, args)
  }

  /**
   * With a valid span the format gets the trace prefix and the arguments are the trace ID, the
   * span ID and then the original arguments in order; otherwise both pass through unchanged.
   */
  lemma CorrelatedShape(span: SpanContext, format: string, args: seq<Arg>)
    ensures var call := Correlated(span, format, args);
            && (span.valid ==> call.format == TracePrefix + format)
            && (span.valid ==> |call.args| == |args| + 2)
            && (span.valid ==> call.args[0] == Text(span.traceID) && call.args[1] == Text(span.spanID))
            && (span.valid ==> forall k | 0 <= k < |args| :: call.args[k + 2] == args[k])
            && (!span.valid ==> call == LogCall(format, args))
  {
  }

  /** `LogWithContext`: fills a fresh argument array of length `|args| + 2` and makes the call `Correlated` describes. */
  method LogWithContext(span: SpanContext, format: string, args: seq<Arg>) returns (call: LogCall)
    ensures call == Correlated(span, format, args)
  {
    if span.valid {
      var f := TracePrefix + format;
      var newArgs := new Arg[|args| + 2](_ => Nil);
      newArgs[0] := Text(span.traceID);
      newArgs[1] := Text(span.spanID);
      var i := 0;
      while i < |args|
        invariant 0 <= i <= |args|
        invariant newArgs[0] == Text(span.traceID) && newArgs[1] == Text(span.spanID)
        invariant forall k | 0 <= k < i :: newArgs[k + 2] == args[k]
      {
        newArgs[i + 2] := args[i];
        i := i + 1;
      }
      call := LogCall(f, newArgs[..]);
      assert newArgs[..] == [Text(span.traceID), Text(span.spanID)] + args;
    } else {
      call := LogCall(format, args);
    }
  }

  datatype LogFlag = Ldate | Ltime | Lmicroseconds | Lshortfile
  datatype Stream = Stdout | Stderr

  /** The standard `log` package's global settings. */
  class StdLog {
    var flags: set<LogFlag>
    var output: Stream

    /** The package defaults: `LstdFlags` (date and time) on standard error. */
    constructor ()
      ensures flags == {Ldate, Ltime} && output == Stderr
    {
      flags := {Ldate, Ltime};
      output := Stderr;
    }

    /**
     * `setupLogging`: date, time, microseconds and the short file name on standard output; it never
     * fails. Its configuration argument is ignored, so the model takes none.
     */
    method SetupLogging() returns (err: Option<string>)
      modifies this
      ensures flags == {Ldate, Ltime, Lmicroseconds, Lshortfile} && output == Stdout
      ensures err == None
    {
      flags := {Ldate, Ltime, Lmicroseconds, Lshortfile};
      output := Stdout;
      err := None;
    }
  }
}
