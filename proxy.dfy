/**
  The logging proxy of ch_14_GoF_2/proxy.cpp. `Logger` prints "info" or
  "error"; `LevelLogger` wraps another logger and a level, both fixed when it is
  constructed, forwards `error` always and `info` only when its level is
  positive. A logger is a value here, since nothing changes it after
  construction; printing is the sequence of lines a call emits.
*/
module Proxy {

  /** An `ILogger`: the console `Logger`, or a `LevelLogger` around another one. */
  datatype ILogger = Logger | LevelLogger(level: int, logger: ILogger)

  /** `info()` through the whole chain of proxies. */
  function Info(l: ILogger): (out: seq<string>)
    ensures out == [] || out == ["info"]
    ensures l.LevelLogger? && l.level <= 0 ==> out == []
    ensures l.LevelLogger? && l.level > 0 ==> out == Info(l.logger)
  {
    match l
    case Logger => ["info"]
    case LevelLogger(level, logger) => if level > 0 then Info(logger) else []
  }

  /** `error()` through the whole chain of proxies: always one "error". */
  function Error(l: ILogger): (out: seq<string>)
    ensures out == ["error"]
  {
    match l
    case Logger => ["error"]
    case LevelLogger(_, logger) => Error(logger)
  }

  /** Every proxy on the way to the console logger has a positive level. */
  ghost predicate AllLevelsPositive(l: ILogger) {
    match l
    case Logger => true
    case LevelLogger(level, logger) => level > 0 && AllLevelsPositive(logger)
  }

  /** An `info` call gets through exactly when no proxy on the chain gates it. */
  lemma {:induction false} InfoGetsThrough(l: ILogger)
    ensures Info(l) == ["info"] <==> AllLevelsPositive(l)
  {
    match l
    case Logger =>
    case LevelLogger(level, logger) => InfoGetsThrough(logger);
  }

  /** `main`: a proxy with level 0 prints nothing for `info` and "error" for `error`. */
  function ProxyMain(): (out: (seq<string>, seq<string>))
    ensures out.0 == [] && out.1 == ["error"]
  {
    var l := LevelLogger(0, Logger);
    (Info(l), Error(l))
  }
}
