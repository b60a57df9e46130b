/**
 * The NXLogFormatter protocol: one function from the logger name, level, client info, error,
 * exception and message format to a message. The message is of a type the formatter chooses
 * (a string for the console, a record for the system log); dispatch never inspects it.
 */
module LogFormatter {
  import opened Optional
  import opened LogTypes
  import opened LogClientInfo
  import opened Errors
  import opened Exceptions

  /** An argument substituted into a printf-style format. */
  datatype FormatArgument = IntegerArgument(integer: int) | TextArgument(text: string)

  /** A format with the arguments to substitute into it; the expansion itself is Foundation's. */
  datatype MessageText = MessageText(format: string, arguments: seq<FormatArgument>)

  /**
   * A formatter producing messages of type M. Formatting is a total function: every combination
   * of nil error, exception and format yields a message.
   */
  datatype Formatter<M> = Formatter(
    render: (string, Level, ClientInfo, Option<NSError>, Option<Exception>, Option<MessageText>) -> M)

  /** The message text handed to a formatter: none at all when the format is nil. */
  function MessageTextFor(format: Option<string>, arguments: seq<FormatArgument>): (t: Option<MessageText>)
    ensures t.None? <==> format.None?
    ensures t.Some? ==> t.value.format == format.value && t.value.arguments == arguments
  {
    match format
    case None => None
    case Some(f) => Some(MessageText(f, arguments))
  }

  /**
   * messageForLogger:level:client:error:exception:format:arguments: — the logger name is a
   * string (never nil); error, exception and format may each be nil.
   */
  function MessageForLogger<M>(f: Formatter<M>, loggerName: string, level: Level, client: ClientInfo,
                               error: Option<NSError>, exception: Option<Exception>,
                               format: Option<string>, arguments: seq<FormatArgument>): M
  {
    f.render(loggerName, level, client, error, exception, MessageTextFor(format, arguments))
  }

  /** With a nil format the arguments are not taken into account. */
  lemma NilFormatIgnoresArguments<M>(f: Formatter<M>, loggerName: string, level: Level, client: ClientInfo,
                                     error: Option<NSError>, exception: Option<Exception>,
                                     a1: seq<FormatArgument>, a2: seq<FormatArgument>)
    ensures MessageForLogger(f, loggerName, level, client, error, exception, None, a1)
            == MessageForLogger(f, loggerName, level, client, error, exception, None, a2)
  {
  }

  /** With a format, the formatter sees that format and exactly the given arguments. */
  lemma FormatCarriesArguments<M>(f: Formatter<M>, loggerName: string, level: Level, client: ClientInfo,
                                  error: Option<NSError>, exception: Option<Exception>,
                                  format: string, arguments: seq<FormatArgument>)
    ensures MessageForLogger(f, loggerName, level, client, error, exception, Some(format), arguments)
            == f.render(loggerName, level, client, error, exception, Some(MessageText(format, arguments)))
  {
  }
}

/**
 * NXBasicLogFormatter: the configurable knobs of the basic formatter — the date format, the
 * info to hide, and the level from which exceptions are logged with their call-stack symbols.
 */
module BasicLogFormatter {
  import opened LogTypes

  const DefaultDateFormat: string := "yyyy-MM-dd HH:mm:ss"

  /** Some of the given info is among the hidden info. */
  predicate Hidden(hiddenInfo: InfoMask, info: InfoMask)
  {
    hiddenInfo & info != 0
  }

  /** Exceptions logged at this level carry their call-stack symbols: it is at least as severe as the threshold. */
  predicate SymbolsIncluded(level: Level, threshold: Level)
  {
    level <= threshold
  }

  class BasicLogFormatter {
    var dateFormat: string
    var hiddenInfo: InfoMask
    var exceptionSymbolsThreshold: Level

    /** A formatter with the defaults: date format "yyyy-MM-dd HH:mm:ss", nothing hidden, threshold Error. */
    constructor ()
      ensures dateFormat == DefaultDateFormat
      ensures hiddenInfo == InfoNone
      ensures exceptionSymbolsThreshold == LevelError
    {
      dateFormat := DefaultDateFormat;
      hiddenInfo := InfoNone;
      exceptionSymbolsThreshold := LevelError;
    }

    method SetDateFormat(format: string)
      modifies this`dateFormat
      ensures dateFormat == format
      ensures hiddenInfo == old(hiddenInfo) && exceptionSymbolsThreshold == old(exceptionSymbolsThreshold)
    {
      dateFormat := format;
    }

    method SetHiddenInfo(info: InfoMask)
      modifies this`hiddenInfo
      ensures hiddenInfo == info
      ensures exceptionSymbolsThreshold == old(exceptionSymbolsThreshold) && dateFormat == old(dateFormat)
    {
      hiddenInfo := info;
    }

    method SetExceptionSymbolsThreshold(level: Level)
      modifies this`exceptionSymbolsThreshold
      ensures exceptionSymbolsThreshold == level
      ensures hiddenInfo == old(hiddenInfo) && dateFormat == old(dateFormat)
    {
      exceptionSymbolsThreshold := level;
    }

    /** isHiddenInfo: — the info is excluded from the log message. */
    predicate IsHiddenInfo(info: InfoMask)
      reads this
    {
      Hidden(hiddenInfo, info)
    }

    /** Whether an exception logged at this level is logged with its call-stack symbols. */
    predicate IncludesExceptionSymbols(level: Level)
      reads this
    {
      SymbolsIncluded(level, exceptionSymbolsThreshold)
    }
  }

  /** For a single flag, hiding is exactly the test of its bit in the hidden info. */
  lemma HiddenSingleFlagIsBitTest(hiddenInfo: InfoMask, i: nat)
    requires i < |SingleFlags|
    ensures Hidden(hiddenInfo, SingleFlags[i]) <==> Includes(hiddenInfo, SingleFlags[i])
    ensures Hidden(hiddenInfo, SingleFlags[i]) <==> (hiddenInfo >> i) & 1 == 1
  {
    SingleFlagsArePowersOfTwo();
    var f := SingleFlags[i];
    assert f == 1 << i;
  }

  /** With the default hidden info nothing is hidden; with All, every flag and union is. */
  lemma DefaultHidesNothing(info: InfoMask)
    ensures !Hidden(InfoNone, info)
    ensures info != InfoNone ==> Hidden(InfoAll, info)
  {
  }

  /** Hiding a union hides each of its members, and only those among the single flags. */
  lemma HiddenUnionMembers(i: nat)
    requires i < |SingleFlags|
    ensures Hidden(InfoSourceCode, SingleFlags[i]) <==> i < 3
    ensures Hidden(InfoContent, SingleFlags[i]) <==> 13 <= i
  {
    SingleFlagsArePowersOfTwo();
    var f := SingleFlags[i];
    assert f == 1 << i;
    SourceCodeMembers(f);
    ContentMembers(f);
  }

  /**
   * With the default threshold Error, symbols are included for Emergency, Alert, Critical and
   * Error, and left out for Warning, Notice, Info and Debug.
   */
  lemma DefaultThresholdSplitsAtError(level: Level)
    requires IsConcrete(level)
    ensures SymbolsIncluded(level, LevelError) <==> level in ConcreteLevels[..4]
  {
    ConcreteIsRange(level);
  }

  /** Raising the threshold never removes symbols: inclusion is monotone in the threshold. */
  lemma SymbolsMonotone(level: Level, t1: Level, t2: Level)
    requires t1 <= t2
    ensures SymbolsIncluded(level, t1) ==> SymbolsIncluded(level, t2)
    ensures SymbolsIncluded(level, LevelAny) && (SymbolsIncluded(level, LevelNone) <==> level == LevelNone)
  {
  }

  /** levelName: — the name of a level; the sentinels and unnamed values get one as well. */
  function LevelName(level: Level): (name: string)
    ensures |name| > 0
  {
    if level == LevelEmergency then "EMERGENCY"
    else if level == LevelAlert then "ALERT"
    else if level == LevelCritical then "CRITICAL"
    else if level == LevelError then "ERROR"
    else if level == LevelWarning then "WARNING"
    else if level == LevelNotice then "NOTICE"
    else if level == LevelInfo then "INFO"
    else if level == LevelDebug then "DEBUG"
    else if level == LevelNone then "NONE"
    else if level == LevelAny then "ANY"
    else "LEVEL"
  }

  /** Every concrete level has its own name, different from the names of the others and of the sentinels. */
  lemma LevelNamesDistinguishConcreteLevels(a: Level, b: Level)
    requires IsConcrete(a)
    ensures LevelName(a) != "LEVEL" && LevelName(a) != "NONE" && LevelName(a) != "ANY"
    ensures LevelName(a) == LevelName(b) ==> a == b
  {
  }
}
