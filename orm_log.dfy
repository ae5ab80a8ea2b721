/**
 * gee-orm/log/log.go: two package loggers, error and info, and the level
 * switch that silences them. Only where each logger writes is modelled;
 * prefixes, flags and the formatting of a line are not.
 */
module OrmLog {

  /** The levels, in the order of iota. */
  const InfoLevel := 0
  const ErrorLevel := 1
  const Disabled := 2

  /** Where a logger writes: os.Stdout or ioutil.Discard. */
  datatype Output = Stdout | Discard

  /** A *log.Logger, by its output only. */
  class Logger {
    var output: Output

    /** log.New(os.Stdout, ...) */
    constructor ()
      ensures output == Stdout
    {
      output := Stdout;
    }
  }

  /**
   * The outputs of the error and the info logger after SerLevel(level):
   * info enables both, error silences info only, and disabled (or any
   * higher level) silences both.
   */
  function Outputs(level: int): (o: (Output, Output))
    ensures level <= InfoLevel ==> o == (Stdout, Stdout)
    ensures level == ErrorLevel ==> o == (Stdout, Discard)
    ensures level >= Disabled ==> o == (Discard, Discard)
  {
    (if ErrorLevel < level then Discard else Stdout,
     if InfoLevel < level then Discard else Stdout)
  }

  /** A level that silences the error logger silences the info logger too, and raising the level never re-enables one. */
  lemma OutputsMonotone(level: int, level': int)
    requires level <= level'
    ensures Outputs(level).0 == Discard ==> Outputs(level).1 == Discard
    ensures Outputs(level).0 == Discard ==> Outputs(level').0 == Discard
    ensures Outputs(level).1 == Discard ==> Outputs(level').1 == Discard
  {
  }

  /** The package-level loggers: errorLog, infoLog, and loggers = [errorLog, infoLog]. */
  class Loggers {
    const errorLog: Logger
    const infoLog: Logger
    const loggers: seq<Logger>

    ghost predicate Valid()
    {
      loggers == [errorLog, infoLog] && errorLog != infoLog
    }

    /** The package's var block: both loggers write to stdout. */
    constructor ()
      ensures Valid() && fresh(errorLog) && fresh(infoLog)
      ensures errorLog.output == Stdout && infoLog.output == Stdout
    {
      var e := new Logger();
      var i := new Logger();
      errorLog := e;
      infoLog := i;
      loggers := [e, i];
    }

    /** SerLevel: every logger back to stdout, then the loggers below the level to discard. */
    method SerLevel(level: int)
      requires Valid()
      modifies errorLog, infoLog
      ensures (errorLog.output, infoLog.output) == Outputs(level)
    {
      for i := 0 to |loggers|
        invariant forall j :: 0 <= j < i ==> loggers[j].output == Stdout
      {
        loggers[i].output := Stdout;
      }
      assert loggers[0] == errorLog && loggers[1] == infoLog;
      if ErrorLevel < level {
        errorLog.output := Discard;
      }
      if InfoLevel < level {
        infoLog.output := Discard;
      }
    }
  }
}
