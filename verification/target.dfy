/**
 * The NXLogTarget protocol: a sink with a maximum log level and a formatter, writing one
 * message at a time. The model records what a target has written, in order.
 */
module Targets {
  import opened LogTypes
  import opened LogFormatter

  /** One message written by a target, with the level it was logged at. */
  datatype Entry<M> = Entry(level: Level, message: M)

  /** A message of this level is logged by a target with this maximum level. */
  predicate Passes(level: Level, maxLogLevel: Level)
  {
    level <= maxLogLevel
  }

  class LogTarget<M> {
    var maxLogLevel: Level
    var logFormatter: Formatter<M>
    /** Everything written by log:message:, oldest first: the medium the target writes to. */
    var written: seq<Entry<M>>

    constructor (maxLogLevel: Level, logFormatter: Formatter<M>)
      ensures this.maxLogLevel == maxLogLevel && this.logFormatter == logFormatter
      ensures written == []
    {
      this.maxLogLevel := maxLogLevel;
      this.logFormatter := logFormatter;
      written := [];
    }

    /** Setting maxLogLevel leaves the formatter and what was written as they were. */
    method SetMaxLogLevel(level: Level)
      modifies this`maxLogLevel
      ensures maxLogLevel == level
      ensures logFormatter == old(logFormatter) && written == old(written)
    {
      maxLogLevel := level;
    }

    /** Setting the formatter leaves maxLogLevel and what was written as they were. */
    method SetLogFormatter(formatter: Formatter<M>)
      modifies this`logFormatter
      ensures logFormatter == formatter
      ensures maxLogLevel == old(maxLogLevel) && written == old(written)
    {
      logFormatter := formatter;
    }

    /** log:message: — writes the message as one unit; nothing else changes. */
    method Log(level: Level, message: M)
      modifies this`written
      ensures written == old(written) + [Entry(level, message)]
      ensures maxLogLevel == old(maxLogLevel) && logFormatter == old(logFormatter)
    {
      written := written + [Entry(level, message)];
    }
  }

  /** A target whose maximum level is None logs nothing but messages of level None itself. */
  lemma NoneLogsNothing(level: Level)
    ensures Passes(level, LevelNone) <==> level == LevelNone
    ensures IsConcrete(level) ==> !Passes(level, LevelNone)
  {
  }

  /** A target whose maximum level is Any logs every level. */
  lemma AnyLogsEverything(level: Level)
    ensures Passes(level, LevelAny)
  {
  }

  /** A target with a concrete maximum level logs exactly that level and the more severe ones. */
  lemma ConcreteMaximum(level: Level, maxLogLevel: Level, i: nat, j: nat)
    requires i < |ConcreteLevels| && j < |ConcreteLevels|
    requires level == ConcreteLevels[i] && maxLogLevel == ConcreteLevels[j]
    ensures Passes(level, maxLogLevel) <==> i <= j
  {
    ConcreteLevelsAreConsecutive();
  }
}
