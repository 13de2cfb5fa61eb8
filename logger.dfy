/**
 * The leveled logger (pkg/logger/logger.go): level names and colours, filtering by level, line
 * assembly with the logger's fields, and loggers derived with extra fields.
 *
 * `fmt.Sprintf(format, args...)` is not modelled: a message arrives already formatted, and a field
 * value arrives as the text `%v` prints for it. The `log.Logger` a logger writes to is an `Output`
 * object that collects the text of each `Printf` call (its timestamp prefix is not modelled) and is
 * shared by a logger and the loggers derived from it. `os.Exit(1)` is the exit code a call returns.
 */
module Logger {
  import opened Wrappers

  type LogLevel = int

  const Debug: LogLevel := 0
  const Info: LogLevel := 1
  const Warn: LogLevel := 2
  const Error: LogLevel := 3
  const Fatal: LogLevel := 4

  const Reset: string := "\U{1B}[0m"
  const Red: string := "\U{1B}[31m"
  const Green: string := "\U{1B}[32m"
  const Yellow: string := "\U{1B}[33m"
  const Cyan: string := "\U{1B}[36m"
  const Bold: string := "\U{1B}[1m"

  /** `LogLevel.String`. */
  function LevelName(l: LogLevel): (s: string)
    ensures Debug <= l <= Fatal ==> s == ["DEBUG", "INFO", "WARN", "ERROR", "FATAL"][l]
    ensures !(Debug <= l <= Fatal) ==> s == "UNKNOWN"
  {
    match l
    case 0 => "DEBUG"
    case 1 => "INFO"
    case 2 => "WARN"
    case 3 => "ERROR"
    case 4 => "FATAL"
    case _ => "UNKNOWN"
  }

  /** `getColorForLevel`. */
  function ColorFor(l: LogLevel): (c: string)
    ensures Debug <= l <= Fatal ==> c == [Cyan, Green, Yellow, Red, Bold + Red][l]
    ensures !(Debug <= l <= Fatal) ==> c == Reset
  {
    match l
    case 0 => Cyan
    case 1 => Green
    case 2 => Yellow
    case 3 => Red
    case 4 => Bold + Red
    case _ => Reset
  }

  /** The five named levels have five different names and five different colours. */
  lemma NamesAndColorsDistinct(a: LogLevel, b: LogLevel)
    requires Debug <= a <= Fatal && Debug <= b <= Fatal && a != b
    ensures LevelName(a) != LevelName(b)
    ensures ColorFor(a) != ColorFor(b)
  {
  }

  /** The level tag of a line: the name, wrapped in the level's colour and a reset when colours are on. */
  function LevelTag(l: LogLevel, useColors: bool): string {
    if useColors then ColorFor(l) + LevelName(l) + Reset else LevelName(l)
  }

  /** `order` lists every key of the set exactly once. */
  predicate Enumerates(order: seq<string>, keys: set<string>) {
    && (forall i, j | 0 <= i < j < |order| :: order[i] != order[j])
    && (forall k | k in keys :: k in order)
    && (forall i | 0 <= i < |order| :: order[i] in keys)
  }

  /** The " k=v" suffix for the fields visited in `order`. */
  function Pairs(order: seq<string>, fields: map<string, string>): string
    requires forall k | k in order :: k in fields
  {
    if order == [] then ""
    else Pairs(order[..|order| - 1], fields) + " " + order[|order| - 1] + "=" + fields[order[|order| - 1]]
  }

  /** The text of one emitted line, given the order in which map iteration visited the fields. */
  function Line(l: LogLevel, useColors: bool, msg: string, order: seq<string>, fields: map<string, string>): string
    requires forall k | k in order :: k in fields
  {
    "[" + LevelTag(l, useColors) + "] " + msg + Pairs(order, fields)
  }

  /** Every line starts with the bracketed level tag and the message, whatever order the fields came in. */
  lemma {:induction false} LineStartsWithTagAndMessage(l: LogLevel, useColors: bool, msg: string,
                                                       order: seq<string>, fields: map<string, string>)
    requires forall k | k in order :: k in fields
    ensures var prefix := "[" + LevelTag(l, useColors) + "] " + msg;
            |prefix| <= |Line(l, useColors, msg, order, fields)| &&
            Line(l, useColors, msg, order, fields)[..|prefix|] == prefix
    ensures order == [] ==> Line(l, useColors, msg, order, fields) == "[" + LevelTag(l, useColors) + "] " + msg
  {
    var prefix := "[" + LevelTag(l, useColors) + "] " + msg;
    var line := Line(l, useColors, msg, order, fields);
    assert line == prefix + Pairs(order, fields);
    assert line[..|prefix|] == prefix;
  }

  /** `maps.Copy(dst, src)` on a copy of `dst`: every key of `src` is set to its value there. */
  method CopyFields(dst: map<string, string>, src: map<string, string>) returns (m: map<string, string>)
    ensures forall k :: k in m <==> k in dst || k in src
    ensures forall k | k in src :: m[k] == src[k]
    ensures forall k | k in dst && k !in src :: m[k] == dst[k]
  {
    m := dst;
    var todo := src.Keys;
    ghost var done: set<string> := {};
    while todo != {}
      invariant forall k :: k in src <==> k in done || k in todo
      invariant done !! todo
      invariant forall k :: k in m <==> k in dst || k in done
      invariant forall k | k in done :: m[k] == src[k]
      invariant forall k | k in dst && k !in done :: m[k] == dst[k]
      decreases |todo|
    {
      var k :| k in todo;
      m := m[k := src[k]];
      todo := todo - {k};
      done := done + {k};
    }
  }

  /**
   * The " k=v" pairs `log` appends, built in the order map iteration visits the fields; that order
   * is returned as a ghost value.
   */
  method FieldsSuffix(fields: map<string, string>) returns (suffix: string, ghost order: seq<string>)
    ensures Enumerates(order, fields.Keys)
    ensures forall k | k in order :: k in fields
    ensures suffix == Pairs(order, fields)
    ensures suffix == "" <==> fields == map[]
  {
    suffix := "";
    order := [];
    var todo := fields.Keys;
    while todo != {}
      invariant todo <= fields.Keys
      invariant forall k | k in order :: k in fields && k !in todo
      invariant forall k | k in fields :: k in order || k in todo
      invariant forall i, j | 0 <= i < j < |order| :: order[i] != order[j]
      invariant suffix == Pairs(order, fields)
      invariant suffix == "" <==> order == []
      decreases |todo|
    {
      var k :| k in todo;
      assert (order + [k])[..|order|] == order;
      suffix := suffix + " " + k + "=" + fields[k];
      order := order + [k];
      todo := todo - {k};
    }
  }

  /** The `log.Logger` a logger writes to: the text of every `Printf` call, in order. */
  class Output {
    var lines: seq<string>

    constructor ()
      ensures lines == []
    {
      lines := [];
    }
  }

  class SimpleLogger {
    const level: LogLevel
    const output: Output
    var fields: map<string, string>
    var useColors: bool

    /** `NewLogger`: a nil writer means standard output. */
    constructor (level: LogLevel, out: Option<Output>, stdout: Output, useColors: bool)
      ensures this.level == level && this.useColors == useColors && fields == map[]
      ensures output == (if out.Some? then out.value else stdout)
    {
      this.level := level;
      output := if out.Some? then out.value else stdout;
      fields := map[];
      this.useColors := useColors;
    }

    /**
     * `log`. A message below the logger's level writes nothing. Otherwise exactly one line is
     * written: the level tag, the message and one " k=v" per field, each field once, in an order
     * that map iteration chooses. A Fatal message that is written ends the process with code 1.
     */
    method Log(l: LogLevel, msg: string) returns (exit: Option<int>)
      modifies output
      ensures l < level ==> output.lines == old(output.lines) && exit == None
      ensures l >= level ==>
                exists order | Enumerates(order, fields.Keys) ::
                  output.lines == old(output.lines) + [Line(l, useColors, msg, order, fields)]
      ensures exit == (if l >= level && l == Fatal then Some(1) else None)
    {
      if l < level {
        return None;
      }
      var text := msg;
      ghost var order: seq<string> := [];
      if |fields| > 0 {
        var suffix;
        suffix, order := FieldsSuffix(fields);
        text := text + suffix;
      }
      assert text == msg + Pairs(order, fields);
      var line := "[" + LevelTag(l, useColors) + "] " + text;
      assert line == Line(l, useColors, msg, order, fields);
      output.lines := output.lines + [line];
      assert Enumerates(order, fields.Keys);
      assert output.lines == old(output.lines) + [Line(l, useColors, msg, order, fields)];
      exit := if l == Fatal then Some(1) else None;
    }

    /**
     * `WithField`: a new logger with the same level, output and colour setting whose fields are
     * this logger's plus `key` set to `value`; this logger's own fields are not touched.
     */
    method WithField(key: string, value: string) returns (child: SimpleLogger)
      ensures fresh(child)
      ensures child.level == level && child.output == output && child.useColors == useColors
      ensures forall k :: k in child.fields <==> k in fields || k == key
      ensures child.fields[key] == value
      ensures forall k | k in fields && k != key :: child.fields[k] == fields[k]
    {
      child := new SimpleLogger(level, Some(output), output, useColors);
      var copied := CopyFields(map[], fields);
      child.fields := copied[key := value];
    }

    /** `WithFields`: as `WithField`, with every entry of `extra` overriding this logger's fields. */
    method WithFields(extra: map<string, string>) returns (child: SimpleLogger)
      ensures fresh(child)
      ensures child.level == level && child.output == output && child.useColors == useColors
      ensures forall k :: k in child.fields <==> k in fields || k in extra
      ensures forall k | k in extra :: child.fields[k] == extra[k]
      ensures forall k | k in fields && k !in extra :: child.fields[k] == fields[k]
    {
      child := new SimpleLogger(level, Some(output), output, useColors);
      var copied := CopyFields(map[], fields);
      copied := CopyFields(copied, extra);
      child.fields := copied;
    }

    /** `EnableColors`. */
    method EnableColors(enable: bool)
      modifies this
      ensures useColors == enable && fields == old(fields)
    {
      useColors := enable;
    }
  }
}
