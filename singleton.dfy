/**
  The loggers of ch_13_gof_1/singleton.cpp.

  - The free functions `error`, `warn` and `info` print their message only when
    the global `severity`, fixed at `warn`, is at least the message's severity.
  - `SimpleLogger` does the same with a member `severity`, also `warn`.
  - `Logger` is a singleton: `getInstance` hands out one function-local static
    object, and its `info` and `warn` print without any check.
  Printing is modelled as the sequence of lines a call emits.
*/
module Singleton {

  /** The `Severity` enumeration, in declaration order. */
  datatype Severity = Error | Warn | Info

  /** The enumerator's underlying value, which `>=` compares. */
  function Rank(s: Severity): (r: nat)
    ensures r < 3
  {
    match s
    case Error => 0
    case Warn => 1
    case Info => 2
  }

  /** `error < warn < info`, and any two settings are comparable. */
  lemma SeverityOrder(a: Severity, b: Severity)
    ensures Rank(Error) < Rank(Warn) < Rank(Info)
    ensures Passes(a, b) || Passes(b, a)
    ensures Passes(a, b) && Passes(b, a) ==> a == b
  {
  }

  /** The initial value of the global `severity` and of `SimpleLogger::severity`. */
  const DefaultSeverity: Severity := Warn

  /** `severity >= level`: a message of `level` passes the filter. */
  predicate Passes(severity: Severity, level: Severity) {
    Rank(severity) >= Rank(level)
  }

  /** One filtered print: the line, if the message passes. */
  function Filtered(severity: Severity, level: Severity, line: string): (out: seq<string>)
    ensures out == [] || out == [line]
    ensures out != [] <==> Passes(severity, level)
  {
    if Passes(severity, level) then [line] else []
  }

  /** The free function `error`. */
  function ErrorAt(severity: Severity, msg: string): (out: seq<string>)
    ensures out == ["[error]" + msg]
  {
    Filtered(severity, Error, "[error]" + msg)
  }

  /** The free function `warn`. */
  function WarnAt(severity: Severity, msg: string): (out: seq<string>)
    ensures out != [] <==> severity == Warn || severity == Info
    ensures out != [] ==> out == ["[warn]" + msg]
  {
    Filtered(severity, Warn, "[warn]" + msg)
  }

  /** The free function `info`. */
  function InfoAt(severity: Severity, msg: string): (out: seq<string>)
    ensures out != [] <==> severity == Info
    ensures out != [] ==> out == ["[info]" + msg]
  {
    Filtered(severity, Info, "[info]" + msg)
  }

  /** Raising the setting never silences a message a lower setting let through. */
  lemma RaisingNeverSuppresses(lower: Severity, higher: Severity, level: Severity, line: string)
    requires Rank(lower) <= Rank(higher)
    ensures Filtered(lower, level, line) != [] ==> Filtered(higher, level, line) == [line]
  {
  }

  /** `SimpleLogger`: the same filters over its own `severity`. */
  datatype SimpleLogger = SimpleLogger(severity: Severity) {

    function LogError(msg: string): (out: seq<string>)
      ensures out == ErrorAt(severity, msg)
    {
      Filtered(severity, Error, "[error]" + msg)
    }

    function LogWarn(msg: string): (out: seq<string>)
      ensures out == WarnAt(severity, msg)
    {
      Filtered(severity, Warn, "[warn]" + msg)
    }

    function LogInfo(msg: string): (out: seq<string>)
      ensures out == InfoAt(severity, msg)
    {
      Filtered(severity, Info, "[info]" + msg)
    }
  }

  /** The global `logger`, with the in-class initialiser's severity. */
  const GlobalLogger: SimpleLogger := SimpleLogger(DefaultSeverity)

  /** With the default setting, errors and warnings are printed and information
      is not, by the free functions and by `SimpleLogger` alike. */
  lemma DefaultFilters(msg: string)
    ensures ErrorAt(DefaultSeverity, msg) != [] && WarnAt(DefaultSeverity, msg) != []
    ensures InfoAt(DefaultSeverity, msg) == []
    ensures GlobalLogger.LogError(msg) != [] && GlobalLogger.LogWarn(msg) != []
    ensures GlobalLogger.LogInfo(msg) == []
  {
  }

  /** The error stream `std::cerr`: the lines written to it so far. */
  class Stream {
    var lines: seq<string>

    constructor ()
      ensures lines == []
    {
      lines := [];
    }
  }

  /** The singleton `Logger`; it has no state of its own. */
  class Logger {

    constructor ()
    {
    }

    /** `info`: appends one line to the error stream on every call. */
    method LogInfo(err: Stream, message: string)
      modifies err
      ensures err.lines == old(err.lines) + ["\tinfo: " + message]
    {
      err.lines := err.lines + ["\tinfo: " + message];
    }

    /** `warn`: appends one line to the error stream on every call. */
    method LogWarn(err: Stream, message: string)
      modifies err
      ensures err.lines == old(err.lines) + ["warning: " + message]
    {
      err.lines := err.lines + ["warning: " + message];
    }

    /** `set_severity` and `set_file` have empty bodies: with no frame they
        can write neither the logger nor the stream. */
    method SetSeverity(err: Stream)
    {
    }

    method SetFile(err: Stream, filename: string)
    {
    }
  }

  /** The function-local `static Logger instance` of `getInstance`, created on
      the first call. */
  class LoggerInstance {
    var instance: Logger?

    constructor ()
      ensures instance == null
    {
      instance := null;
    }

    /** `getInstance`: the first call creates the logger, every later one returns it. */
    method GetInstance() returns (logger: Logger)
      modifies this
      ensures instance == logger
      ensures old(instance) != null ==> logger == old(instance)
      ensures old(instance) == null ==> fresh(logger)
    {
      if instance == null {
        instance := new Logger();
      }
      logger := instance;
    }
  }

  /** `main`: the three `getInstance` calls yield one object, and the four
      calls write four lines to the error stream in order. */
  method SingletonMain() returns (same: bool, out: seq<string>)
    ensures same
    ensures out == ["\tinfo: started", "warning: program is empty", "\tinfo: more logs", "warning: warning!"]
  {
    var err := new Stream();
    var statics := new LoggerInstance();
    var first := statics.GetInstance();
    first.LogInfo(err, "started");
    var second := statics.GetInstance();
    second.LogWarn(err, "program is empty");
    var logger := statics.GetInstance();
    logger.LogInfo(err, "more logs");
    logger.LogWarn(err, "warning!");
    same := first == second && second == logger;
    out := err.lines;
    assert "\tinfo: " + "started" == "\tinfo: started";
    assert "warning: " + "program is empty" == "warning: program is empty";
    assert "\tinfo: " + "more logs" == "\tinfo: more logs";
    assert "warning: " + "warning!" == "warning: warning!";
  }
}
