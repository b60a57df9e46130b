/**
 * The log call a Swift log method hands to its logger, described from the arguments of the
 * Swift call.
 */
module SwiftCalls {
  import opened Optional
  import opened LogTypes
  import opened LogClientInfo
  import opened Errors
  import opened Exceptions
  import opened LogFormatter
  import opened Loggers
  import Text

  /**
   * The client info of a Swift log call: the caller's function, file and line, the module when
   * there is one, and every other property from the environment.
   */
  function SwiftClient(functionName: string, file: string, line: int, moduleName: Option<string>,
                       environment: Property -> Option<string>): ClientInfo
  {
    ClientInfo(Some(functionName), Some(file), Some(Text.Decimal(line)), moduleName,
               environment(ProcessName), environment(ProcessID), environment(Date),
               environment(DeviceName), environment(DeviceModel),
               environment(SystemName), environment(SystemVersion))
  }

  /**
   * What a Swift log call hands to the logger: the level, the client info built from the
   * caller's source-code dictionary, the bridged error (present exactly when an error was
   * given; for an NSError a copy equal to it, for an enum error a copy of its bridged error
   * described by the enum's text), the exception, the format and its arguments.
   */
  predicate IsSwiftCall(call: LogCall, level: Level, error: Option<SwiftError>, exception: Option<Exception>,
                        format: Option<string>, arguments: seq<FormatArgument>,
                        functionName: string, file: string, line: int, moduleName: Option<string>,
                        environment: Property -> Option<string>)
  {
    && call.level == level && call.exception == exception
    && call.format == format && call.arguments == arguments
    && call.client == SwiftClient(functionName, file, line, moduleName, environment)
    && (call.error.Some? <==> error.Some?)
    && (error.Some? ==> call.error.value.domain == AsNSError(error.value).domain
                        && call.error.value.code == AsNSError(error.value).code)
    && (error.Some? && error.value.ObjectError? ==> call.error == Some(error.value.instance))
    && (error.Some? && error.value.EnumError? ==>
          && DescribedCopy(call.error.value, error.value.bridged, error.value.text)
          && LocalizedDescription(call.error.value) == error.value.text)
  }
}

/**
 * The Swift conveniences of NXLogger: choosing a default level from what is being logged,
 * building the info dictionary from the caller's function, file, line and module, choosing
 * between the application logger and a named logger, and bridging Swift errors to NSError.
 */
module LoggerSwift {
  import opened Optional
  import opened LogTypes
  import opened LogClientInfo
  import opened Errors
  import opened Exceptions
  import opened LogFormatter
  import opened Targets
  import opened Loggers
  import opened Registry
  import opened StaticLoggers
  import opened SwiftCalls
  import Bundle

  /**
   * levelFor — an explicit level is kept; the level Any is replaced by Alert when there is an
   * exception, else by Error when there is an error, else by Notice when there is a format,
   * else by Debug.
   */
  function LevelFor(level: Level, format: Option<string>, error: Option<SwiftError>,
                    exception: Option<Exception>): Level
  {
    if level == LevelAny then
      if exception.Some? then LevelAlert
      else if error.Some? then LevelError
      else if format.Some? then LevelNotice
      else LevelDebug
    else level
  }

  /** Each case of the level defaulting. */
  lemma LevelForCases(level: Level, format: Option<string>, error: Option<SwiftError>, exception: Option<Exception>)
    ensures level != LevelAny ==> LevelFor(level, format, error, exception) == level
    ensures level == LevelAny && exception.Some? ==> LevelFor(level, format, error, exception) == LevelAlert
    ensures level == LevelAny && exception.None? && error.Some? ==> LevelFor(level, format, error, exception) == LevelError
    ensures level == LevelAny && exception.None? && error.None? && format.Some?
            ==> LevelFor(level, format, error, exception) == LevelNotice
    ensures level == LevelAny && exception.None? && error.None? && format.None?
            ==> LevelFor(level, format, error, exception) == LevelDebug
  {
  }

  /**
   * The chosen level is never Any; a defaulted level is concrete, and the more there is to
   * log (a format, then an error, then an exception) the more severe it is.
   */
  lemma LevelForDefaultsToConcreteLevel(format: Option<string>, error: Option<SwiftError>, exception: Option<Exception>)
    ensures LevelFor(LevelAny, format, error, exception) != LevelAny
    ensures IsConcrete(LevelFor(LevelAny, format, error, exception))
    ensures exception.Some? ==> LevelFor(LevelAny, format, error, exception) < LevelFor(LevelAny, format, error, None)
    ensures error.Some? ==> LevelFor(LevelAny, format, error, None) < LevelFor(LevelAny, format, None, None)
    ensures format.Some? ==> LevelFor(LevelAny, format, None, None) < LevelFor(LevelAny, None, None, None)
  {
  }

  /** A level chosen by levelFor is never Any, whatever was requested. */
  lemma LevelForNeverAny(level: Level, format: Option<string>, error: Option<SwiftError>, exception: Option<Exception>)
    ensures LevelFor(level, format, error, exception) != LevelAny
  {
    if level == LevelAny {
      LevelForDefaultsToConcreteLevel(format, error, exception);
    }
  }

  /**
   * The info dictionary of a Swift log call: the caller's function, file and line under their
   * flags, and the module under its flag only when there is one.
   */
  function SourceInfo(functionName: string, file: string, line: int, moduleName: Option<string>)
    : (info: InfoDictionary)
    ensures info.Keys == {Key(InfoFunction), Key(InfoFile), Key(InfoLine)} + (if moduleName.Some? then {Key(InfoModule)} else {})
    ensures info[Key(InfoFunction)] == TextValue(functionName) && info[Key(InfoFile)] == TextValue(file)
    ensures info[Key(InfoLine)] == NumberValue(line)
    ensures moduleName.Some? ==> info[Key(InfoModule)] == TextValue(moduleName.value)
  {
    SourceCodeKeys();
    var base := map[Key(InfoFunction) := TextValue(functionName), Key(InfoFile) := TextValue(file), Key(InfoLine) := NumberValue(line)];
    if moduleName.Some? then base[Key(InfoModule) := TextValue(moduleName.value)] else base
  }

  /** Builds the info dictionary step by step: the three fixed keys, then the module if given. */
  method BuildSourceInfo(functionName: string, file: string, line: int, moduleName: Option<string>)
    returns (info: InfoDictionary)
    ensures info == SourceInfo(functionName, file, line, moduleName)
  {
    info := map[Key(InfoFunction) := TextValue(functionName), Key(InfoFile) := TextValue(file), Key(InfoLine) := NumberValue(line)];
    if moduleName.Some? {
      info := info[Key(InfoModule) := TextValue(moduleName.value)];
    }
  }

  /**
   * The client info built from that dictionary carries the caller's function, file, line and
   * module; it is SwiftClient of the same arguments.
   */
  lemma SourceInfoReachesClient(functionName: string, file: string, line: int, moduleName: Option<string>,
                                environment: Property -> Option<string>)
    ensures var c := InitWithSourceCodeInfo(SourceInfo(functionName, file, line, moduleName), environment);
            && Get(c, Function) == Some(functionName)
            && Get(c, File) == Some(file)
            && Get(c, Line) == Some(Text.Decimal(line))
            && Get(c, Module) == moduleName
            && c == SwiftClient(functionName, file, line, moduleName, environment)
  {
    var info := SourceInfo(functionName, file, line, moduleName);
    var c := InitWithSourceCodeInfo(info, environment);
    assert IsSourceCodeProperty(Function) && IsSourceCodeProperty(File);
    assert IsSourceCodeProperty(Line) && IsSourceCodeProperty(Module);
    assert Key(InfoModule) in info <==> moduleName.Some?;
  }

  /** The targets of every registered logger. */
  ghost function RegisteredTargets<M>(registry: LogRegistry<M>): set<LogTarget<M>>
    reads registry, registry.loggers.Values
  {
    set l, t | l in registry.loggers.Values && t in l.targets :: t
  }

  /** The logger of a log call: the application logger when no name is given, else the logger of that name. */
  method LoggerFor<M>(registry: LogRegistry<M>, system: LogTarget<M>, console: LogTarget<M>, loggerName: Option<string>)
    returns (logger: Logger<M>)
    requires registry.Valid()
    modifies registry
    ensures registry.Valid()
    ensures logger.name == (if loggerName.None? then Bundle.BundleIdentifier else loggerName.value)
    ensures registry.LoggerNamed(logger.name) == Some(logger)
    ensures logger.name in old(registry.loggers) ==> logger == old(registry.loggers)[logger.name]
    ensures logger.name !in old(registry.loggers) ==> fresh(logger) && logger.targets == [system, console]
    ensures registry.loggers == old(registry.loggers)[logger.name := logger]
    ensures forall t :: t in logger.targets ==> t in old(RegisteredTargets(registry)) || t == system || t == console
  {
    ghost var before := registry.loggers;
    if loggerName.None? {
      logger := ApplicationLogger(registry, system, console);
    } else {
      logger := StaticLoggers.LoggerNamed(registry, system, console, loggerName.value);
    }
    if logger.name in before {
      assert logger in before.Values;
    }
  }

  /** The NSError passed on for a Swift error: the bridged error, with no reason, suggestion or underlying error added. */
  method BridgeError(error: Option<SwiftError>) returns (r: Option<NSError>)
    ensures r.Some? <==> error.Some?
    ensures error.Some? ==> r.value.domain == AsNSError(error.value).domain && r.value.code == AsNSError(error.value).code
    ensures error.Some? && error.value.ObjectError? ==> r == Some(error.value.instance)
    ensures error.Some? && error.value.EnumError? ==>
              DescribedCopy(r.value, error.value.bridged, error.value.text) && LocalizedDescription(r.value) == error.value.text
  {
    if error.None? {
      r := None;
    } else {
      var bridged := ErrorFromSwift(error.value, None, None, None);
      assert KeyIf<string>(None, LocalizedFailureReasonErrorKey) == KeyIf<string>(None, LocalizedRecoverySuggestionErrorKey) == {};
      assert KeyIf<NSError>(None, UnderlyingErrorKey) == {};
      r := Some(bridged);
    }
  }

  /**
   * The call a Swift log method hands to its logger: the info dictionary built from the
   * caller's source code, the bridged error, and the log call they make up.
   */
  method PrepareCall(level: Level, error: Option<SwiftError>, exception: Option<Exception>,
                     format: Option<string>, arguments: seq<FormatArgument>,
                     functionName: string, file: string, line: int, moduleName: Option<string>,
                     environment: Property -> Option<string>)
    returns (info: InfoDictionary, bridged: Option<NSError>, call: LogCall)
    ensures call == LogCall(level, InitWithSourceCodeInfo(info, environment), bridged, exception, format, arguments)
    ensures IsSwiftCall(call, level, error, exception, format, arguments, functionName, file, line, moduleName, environment)
  {
    info := BuildSourceInfo(functionName, file, line, moduleName);
    bridged := BridgeError(error);
    call := LogCall(level, InitWithSourceCodeInfo(info, environment), bridged, exception, format, arguments);
    SourceInfoReachesClient(functionName, file, line, moduleName, environment);
  }

  /**
   * What every Swift log path does once the logger and the level are known: build the info
   * dictionary, bridge the error, and have the logger dispatch the call to its targets.
   */
  method Send<M>(logger: Logger<M>, level: Level, error: Option<SwiftError>,
                 exception: Option<Exception>, format: Option<string>, arguments: seq<FormatArgument>,
                 functionName: string, file: string, line: int, moduleName: Option<string>,
                 environment: Property -> Option<string>)
    returns (call: LogCall, sent: seq<Delivery<M>>)
    modifies logger.targets`written
    ensures IsSwiftCall(call, level, error, exception, format, arguments, functionName, file, line, moduleName, environment)
    ensures forall t :: t in logger.targets ==> t.maxLogLevel == old(t.maxLogLevel) && t.logFormatter == old(t.logFormatter)
    ensures ConfigsOf(logger.targets) == old(ConfigsOf(logger.targets))
    ensures sent == Deliveries(logger.name, old(ConfigsOf(logger.targets)), call)
    ensures forall t :: t in logger.targets ==> t.written == old(t.written) + EntriesFor(sent, logger.targets, t)
  {
    var info, bridged;
    info, bridged, call := PrepareCall(level, error, exception, format, arguments, functionName, file, line, moduleName, environment);
    ghost var configs := ConfigsOf(logger.targets);
    sent := logger.Log(level, info, environment, bridged, exception, format, arguments);
    assert sent == Deliveries(logger.name, configs, call);
  }

  /**
   * Logs through the application logger (no name) or the named logger at the given level: the
   * path shared by the static log method and the global NXLog functions.
   */
  method LogThrough<M>(registry: LogRegistry<M>, system: LogTarget<M>, console: LogTarget<M>,
                       loggerName: Option<string>, level: Level, error: Option<SwiftError>,
                       exception: Option<Exception>, format: Option<string>, arguments: seq<FormatArgument>,
                       functionName: string, file: string, line: int, moduleName: Option<string>,
                       environment: Property -> Option<string>)
    returns (logger: Logger<M>, call: LogCall, sent: seq<Delivery<M>>)
    requires registry.Valid()
    modifies registry, system`written, console`written, RegisteredTargets(registry)`written
    ensures registry.Valid()
    ensures logger.name == (if loggerName.None? then Bundle.BundleIdentifier else loggerName.value)
    ensures registry.loggers == old(registry.loggers)[logger.name := logger]
    ensures logger.name in old(registry.loggers) ==> logger == old(registry.loggers)[logger.name]
    ensures logger.name !in old(registry.loggers) ==> fresh(logger) && logger.targets == [system, console]
    ensures IsSwiftCall(call, level, error, exception, format, arguments, functionName, file, line, moduleName, environment)
    ensures sent == Deliveries(logger.name, ConfigsOf(logger.targets), call)
    ensures forall t :: t in logger.targets ==>
              && (t in old(RegisteredTargets(registry)) || t == system || t == console)
              && t.maxLogLevel == old(t.maxLogLevel) && t.logFormatter == old(t.logFormatter)
              && t.written == old(t.written) + EntriesFor(sent, logger.targets, t)
    ensures forall t: LogTarget<M> :: old(allocated(t)) && t !in logger.targets ==> t.written == old(t.written)
  {
    logger := LoggerFor(registry, system, console, loggerName);
    assert forall t :: t in logger.targets ==>
             && (t in old(RegisteredTargets(registry)) || t == system || t == console)
             && t.maxLogLevel == old(t.maxLogLevel) && t.logFormatter == old(t.logFormatter)
             && t.written == old(t.written);
    ghost var chosen, targets := registry.loggers, logger.targets;
    assert forall t: LogTarget<M> :: old(allocated(t)) ==> t.written == old(t.written);
    call, sent := Send(logger, level, error, exception, format, arguments, functionName, file, line, moduleName, environment);
    assert registry.loggers == chosen && logger.targets == targets;
  }

  /**
   * The static log method: the level is defaulted by levelFor, then the message goes through
   * the application logger (no name) or the named logger.
   */
  method Log<M>(registry: LogRegistry<M>, system: LogTarget<M>, console: LogTarget<M>,
                level: Level, loggerName: Option<string>, error: Option<SwiftError>,
                exception: Option<Exception>, format: Option<string>, arguments: seq<FormatArgument>,
                functionName: string, file: string, line: int, moduleName: Option<string>,
                environment: Property -> Option<string>)
    returns (logger: Logger<M>, call: LogCall, sent: seq<Delivery<M>>)
    requires registry.Valid()
    modifies registry, system`written, console`written, RegisteredTargets(registry)`written
    ensures registry.Valid()
    ensures logger.name == (if loggerName.None? then Bundle.BundleIdentifier else loggerName.value)
    ensures IsSwiftCall(call, LevelFor(level, format, error, exception), error, exception, format, arguments,
                        functionName, file, line, moduleName, environment)
    ensures call.level != LevelAny
    ensures registry.loggers == old(registry.loggers)[logger.name := logger]
    ensures logger.name in old(registry.loggers) ==> logger == old(registry.loggers)[logger.name]
    ensures logger.name !in old(registry.loggers) ==> fresh(logger) && logger.targets == [system, console]
    ensures sent == Deliveries(logger.name, ConfigsOf(logger.targets), call)
    ensures forall t :: t in logger.targets ==>
              && (t in old(RegisteredTargets(registry)) || t == system || t == console)
              && t.maxLogLevel == old(t.maxLogLevel) && t.logFormatter == old(t.logFormatter)
              && t.written == old(t.written) + EntriesFor(sent, logger.targets, t)
    ensures forall t: LogTarget<M> :: old(allocated(t)) && t !in logger.targets ==> t.written == old(t.written)
  {
    LevelForNeverAny(level, format, error, exception);
    logger, call, sent := LogThrough(registry, system, console, loggerName, LevelFor(level, format, error, exception),
                                     error, exception, format, arguments, functionName, file, line, moduleName, environment);
  }

  /** The instance log method: the level is defaulted by levelFor, then this logger dispatches. */
  method LogWith<M>(logger: Logger<M>, level: Level, error: Option<SwiftError>,
                    exception: Option<Exception>, format: Option<string>, arguments: seq<FormatArgument>,
                    functionName: string, file: string, line: int, moduleName: Option<string>,
                    environment: Property -> Option<string>)
    returns (call: LogCall, sent: seq<Delivery<M>>)
    modifies logger.targets`written
    ensures IsSwiftCall(call, LevelFor(level, format, error, exception), error, exception, format, arguments,
                        functionName, file, line, moduleName, environment)
    ensures call.level != LevelAny
    ensures forall t :: t in logger.targets ==> t.maxLogLevel == old(t.maxLogLevel) && t.logFormatter == old(t.logFormatter)
    ensures ConfigsOf(logger.targets) == old(ConfigsOf(logger.targets))
    ensures sent == Deliveries(logger.name, old(ConfigsOf(logger.targets)), call)
    ensures forall t :: t in logger.targets ==> t.written == old(t.written) + EntriesFor(sent, logger.targets, t)
  {
    LevelForNeverAny(level, format, error, exception);
    call, sent := Send(logger, LevelFor(level, format, error, exception), error, exception, format, arguments,
                       functionName, file, line, moduleName, environment);
  }
}
