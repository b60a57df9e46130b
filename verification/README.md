# NXLogging in Dafny

A model of the core of NXLogging, a levelled logging library for iOS and macOS written in
Objective-C and Swift, with proofs of what its interfaces promise.

NXLogging routes every message through three kinds of object:

- A **logger** has a name and an ordered list of **targets**.
  - Loggers are found again by name through a shared **registry**.
  - The static initializers look a logger up, or create and register one that writes to the
    system and console targets.
- A **log call** builds a **client info** record from a dictionary keyed by info flags, then
  reaches each target individually. A target writes the call only when the call's level is at
  most the target's `maxLogLevel`.
- What a target writes is rendered by its own **formatter**. The formatter is a function of the
  logger name, the level, the client info, an optional error, an optional exception and an
  optional format with its arguments.

Errors and exceptions form chains: an `NSError` links to its underlying error, and an
`NSException` to its cause. Their `logInfo` and `logTrace` render one block per link. The Swift
layer adds three things:

- `levelFor`, which picks a default level from what is being logged.
- The source-code info dictionary, built from the caller's function, file, line and module.
- An `NSError` initializer that merges a reason, a suggestion and an underlying error into a copy
  of an error's userInfo.

| file | module(s) | models |
|---|---|---|
| `foundation.dfy` | `Optional`, `Bundle`, `Text` | nil as `Option`; the bundle identifier; newline join and split; decimal rendering |
| `log_types.dfy` | `LogTypes` | `NXLogLevel` (a 64-bit `NSInteger` newtype) and the `NXLogInfo` bit flags (`bv64`) |
| `client_info.dfy` | `LogClientInfo` | `NXLogClientInfo`: its eleven properties, `initWithSourceCodeInfo:`, `stringByReplacingVariablesInString:` |
| `formatter.dfy` | `LogFormatter`, `BasicLogFormatter` | the `NXLogFormatter` protocol as a function; the knobs of `NXBasicLogFormatter` and `levelName:` |
| `target.dfy` | `Targets` | the `NXLogTarget` protocol as a class recording what it has written |
| `logger.dfy` | `Loggers` | `NXLogger`: its target list and the level-gated dispatch of `log:info:error:exception:format:arguments:` |
| `registry.dfy` | `Registry`, `StaticLoggers` | `NXLogRegistry` and the static `loggerNamed:`, `applicationLogger` and `registerLogger:` |
| `errors.dfy` | `Errors` | `NSError (NXLogging)`: `logInfo`, `logTrace`, the convenience initializers and the Swift initializer |
| `exceptions.dfy` | `Exceptions` | `NSException (NXLogging)`: `cause`, `logInfo:`, `logTrace:` and `exceptionWithName:cause:reason:userInfo:` |
| `logger_swift.dfy` | `SwiftCalls`, `LoggerSwift` | `NXLogger.swift`: `levelFor`, the info dictionary, the logger choice, the log methods and the global functions |

## How the model is built

- **Mutable objects are classes.** Targets, loggers, the registry and the basic formatter are
  classes whose setters change one field each.
  - A target records what it has written in a `written` sequence. This stands for the medium it
    writes to.
  - The logger's dispatch is a loop over its targets. It is proved equal to the pure function
    `Loggers.Deliveries` over the targets' configurations, and two lemmas state what that function
    does:
    - `Loggers.DeliveriesSound`: every delivery goes to a target that admits the level, carries
      that target's own rendering, and the deliveries come in target order.
    - `Loggers.DeliveriesComplete`: every target that admits the level receives a delivery.
- **Singletons are parameters.** The shared registry and the shared system and console targets
  are passed in explicitly.
- **Errors and exceptions are values.** Both are datatypes, so their chains are finite.
  - Setting an exception's cause is a datatype update, so aliasing and cycles cannot be expressed.
  - A Swift `ErrorType` is either an `NSError` object or an enum value that bridges to an
    `NSError` and has a textual form.
- **Formatter messages are opaque.** Their type is a type parameter `M`: dispatch never looks
  inside a message.
  - printf-style expansion is Foundation's. The formatter receives the format and its arguments
    as a `MessageText`, or nothing when the format is nil.
- **Info dictionaries are keyed by the raw value of a flag.** `Key(flag)` is the flag as an
  integer, as the `NSNumber` keys are in the source.
- **Undocumented details are modelling choices.** The implementation files of the
  Objective-C classes are not part of this model. Where the headers do not fix a detail, the
  model makes a choice, and every proof holds for that choice:
  - `NSError.logInfo` is `description (domain code)`.
  - An exception's summary is `name: reason`, or only the name when there is no reason. With
    symbols, its call-stack symbols follow the summary, one per line.
  - The parameterless `logInfo` and `logTrace` of an exception leave the symbols out.
  - A variable whose property is nil is replaced by the empty string. A `$(name)` whose name is
    not a property name is kept as it is.
  - The scan of `stringByReplacingVariablesInString:` does not look again at a substituted value:
    a value that itself contains `$(name)` is copied as it is.
  - `levelName:` gives the upper-case name of each concrete level, `NONE` and `ANY` for the
    sentinels, and `LEVEL` for any other value.
  - `isHiddenInfo:` holds when any bit of its argument is hidden.
- **Error keys follow the Swift code, not the header comments.** At lines 92, 113 and 124 the
  header comments of `NSError+NXLogging.h` put the suggestion under `NSLocalizedDescriptionKey`
  and the underlying error under `NSLocalizedRecoverySuggestionErrorKey`. The Swift initializer in
  `NSError+NXLogging.swift` (lines 42-50) puts the reason under `NSLocalizedFailureReasonErrorKey`,
  the suggestion under `NSLocalizedRecoverySuggestionErrorKey` and the underlying error under
  `NSUnderlyingErrorKey`. The model uses those keys for every initializer.
- **The `errorWithDomain:` family keeps the given domain.** No code of this family is part of
  the model, and its header disagrees with itself. At lines 153-191 the summary line of each
  comment says "Uses applicationErrorDomain as the error domain". The `@param domain` text of the
  same comments describes the argument as the error domain. The model keeps the given domain:
  with the application domain, the `domain` argument would be ignored and the family would be
  the `errorWithCode:` family again.

## Model

| member | source | states |
|---|---|---|
| LogTypes.ConcreteLevelsAreConsecutive | NXLogging.framework/Headers/NXLogTypes.h:49-63 | the eight concrete levels are -5 .. 2, strictly increasing from Emergency to Debug |
| LogTypes.ConcreteIsRange | NXLogging.framework/Headers/NXLogTypes.h:49-63 | a level is concrete exactly when it lies between Emergency and Debug |
| LogTypes.SentinelsAreExtremes | NXLogging.framework/Headers/NXLogTypes.h:45-66 | None lies strictly below and Any strictly above every concrete level, and every level lies between them |
| LogTypes.SingleFlagsArePowersOfTwo | NXLogging.framework/Headers/NXLogTypes.h:69-139 | the sixteen single info flags are 1 << 0 .. 1 << 15, in order |
| LogTypes.SingleFlagsArePairwiseDisjoint | NXLogging.framework/Headers/NXLogTypes.h:69-139 | two different single flags are different and share no bit |
| LogTypes.SourceCodeMembers | NXLogging.framework/Headers/NXLogTypes.h:145-146 | a single flag lies in SourceCode exactly when it is Function, File or Line; otherwise it is disjoint from it |
| LogTypes.ContentMembers | NXLogging.framework/Headers/NXLogTypes.h:153-154 | a single flag lies in Content exactly when it is Message, Error or Exception; otherwise it is disjoint from it |
| LogTypes.DeviceMembers | NXLogging.framework/Headers/NXLogTypes.h:147-148 | a single flag lies in Device exactly when it is DeviceName or DeviceModel |
| LogTypes.ProcessMembers | NXLogging.framework/Headers/NXLogTypes.h:149-150 | a single flag lies in Process exactly when it is ProcessName or ProcessID |
| LogTypes.SystemMembers | NXLogging.framework/Headers/NXLogTypes.h:151-152 | a single flag lies in System exactly when it is SystemName or SystemVersion |
| LogTypes.AllAndNoneBound | NXLogging.framework/Headers/NXLogTypes.h:143-156 | every single flag and named union lies within All, shares no bit with None, and is not None |
| LogClientInfo.PropertyNamed | NXLogging/NXLogClientInfo.h:79-86 | a name found names that property; a name not found is no property's name |
| LogClientInfo.PropertyNamesIdentify | NXLogging/NXLogClientInfo.h:41-62 | looking up a property's name gives that property, and no two properties share a name |
| LogClientInfo.PropertyFlagsAreDistinctSingleFlags | NXLogging.framework/Headers/NXLogTypes.h:70-129 | property i is keyed by single flag i (bits 0 .. 10), so no two properties share a flag or a bit |
| LogClientInfo.SourceCodeKeys | NXLogging.framework/Headers/NXLogTypes.h:70-77 | the dictionary keys of Function, File, Line and Module are 1, 2, 4 and 8 |
| LogClientInfo.InitWithSourceCodeInfo | NXLogging/NXLogClientInfo.h:67-74 | function, file, line and module are the descriptions of the seed entries under their flags (nil when absent); the other seven properties come from the environment |
| LogClientInfo.ReplaceVariables | NXLogging/NXLogClientInfo.h:79-86 | the left-to-right scan that replaces each `$(name)` naming a property by its value and copies everything else; NoVariableUnchanged, VariableReplaced, UnknownVariableKept and ReplaceRendersTemplate state what it does |
| LogClientInfo.NoVariableUnchanged | NXLogging/NXLogClientInfo.h:79-86 | a string in which no property variable occurs is returned unchanged |
| LogClientInfo.VariableReplaced | NXLogging/NXLogClientInfo.h:79-86 | `$(p)` is replaced by the value of p (empty when nil), and scanning resumes after it |
| LogClientInfo.UnknownVariableKept | NXLogging/NXLogClientInfo.h:79-86 | `$(n)` whose n contains no `$` and no `)` and is not a property name is copied unchanged, and the scan goes on after it |
| LogClientInfo.ReplaceAtDelimited | NXLogging/NXLogClientInfo.h:79-86 | at `$(name)` the scan substitutes and skips past `)` for a property name, and otherwise copies the `$` and moves on |
| LogClientInfo.PlainPrefixCopied | NXLogging/NXLogClientInfo.h:79-86 | text without a `$` is copied unchanged in front of the replacement of what follows |
| LogClientInfo.ReplaceRendersTemplate | NXLogging/NXLogClientInfo.h:79-86 | replacing the variables of a template whose literal text has no `$` gives the template with each variable replaced by its property's value |
| LogFormatter.MessageForLogger | NXLogging.framework/Headers/NXLogFormatter.h:45-57 | the formatter protocol's one method: a message from the logger name, level, client info, optional error and exception, and the message text of the optional format and its arguments; the three lemmas below state how format and arguments reach it |
| LogFormatter.MessageTextFor | NXLogging.framework/Headers/NXLogFormatter.h:52-53 | the formatter receives no message text exactly when the format is nil, and otherwise the format with exactly the given arguments |
| LogFormatter.NilFormatIgnoresArguments | NXLogging.framework/Headers/NXLogFormatter.h:52-53 | with a nil format the message does not depend on the arguments |
| LogFormatter.FormatCarriesArguments | NXLogging.framework/Headers/NXLogFormatter.h:45-57 | with a format the formatter is given that format and those arguments, with any error and exception, nil or not |
| BasicLogFormatter.BasicLogFormatter.constructor | NXLogging/format/NXBasicLogFormatter.h:45-52 | the defaults: date format "yyyy-MM-dd HH:mm:ss", hidden info None, exception symbols threshold Error |
| BasicLogFormatter.BasicLogFormatter.SetDateFormat | NXLogging/format/NXBasicLogFormatter.h:45-46 | sets the date format and leaves the hidden info and the threshold as they were |
| BasicLogFormatter.BasicLogFormatter.SetHiddenInfo | NXLogging/format/NXBasicLogFormatter.h:48-49 | sets the hidden info and leaves the threshold and the date format as they were |
| BasicLogFormatter.BasicLogFormatter.SetExceptionSymbolsThreshold | NXLogging/format/NXBasicLogFormatter.h:51-52 | sets the threshold and leaves the hidden info and the date format as they were |
| BasicLogFormatter.BasicLogFormatter.IsHiddenInfo | NXLogging/format/NXBasicLogFormatter.h:77-83 | isHiddenInfo: as a predicate on the formatter's hidden-info mask; the next three lemmas state which flags it hides |
| BasicLogFormatter.HiddenSingleFlagIsBitTest | NXLogging/format/NXBasicLogFormatter.h:77-83 | a single flag i is hidden exactly when bit i of the hidden info is set |
| BasicLogFormatter.DefaultHidesNothing | NXLogging/format/NXBasicLogFormatter.h:48-49 | with the default None nothing is hidden; with All every non-empty info is |
| BasicLogFormatter.HiddenUnionMembers | NXLogging/format/NXBasicLogFormatter.h:77-83 | hiding SourceCode hides exactly flags 0 .. 2, and hiding Content hides exactly flags 13 .. 15 |
| BasicLogFormatter.SymbolsIncluded | NXLogging/format/NXBasicLogFormatter.h:51-52 | the exception-symbols rule: a level carries symbols when it is at least as severe as the threshold; DefaultThresholdSplitsAtError and SymbolsMonotone state its consequences |
| BasicLogFormatter.BasicLogFormatter.IncludesExceptionSymbols | NXLogging/format/NXBasicLogFormatter.h:51-52 | the same rule read from the formatter's own exceptionSymbolsThreshold |
| BasicLogFormatter.DefaultThresholdSplitsAtError | NXLogging/format/NXBasicLogFormatter.h:51-52 | with the default threshold, symbols are included for Emergency .. Error and left out for Warning .. Debug |
| BasicLogFormatter.SymbolsMonotone | NXLogging/format/NXBasicLogFormatter.h:51-52 | raising the threshold never removes symbols; Any includes them at every level, and None only at None |
| BasicLogFormatter.LevelName | NXLogging/format/NXBasicLogFormatter.h:66-72 | every level has a non-empty name |
| BasicLogFormatter.LevelNamesDistinguishConcreteLevels | NXLogging/format/NXBasicLogFormatter.h:66-72 | each concrete level has its own name, distinct from every other level's and from the sentinels' names |
| Targets.LogTarget.constructor | NXLogging/NXLogTarget.h:45-48 | a target with the given maximum level and formatter that has written nothing |
| Targets.LogTarget.SetMaxLogLevel | NXLogging/NXLogTarget.h:45-46 | sets the maximum level; the formatter and what was written stay |
| Targets.LogTarget.SetLogFormatter | NXLogging/NXLogTarget.h:47-48 | sets the formatter; the maximum level and what was written stay |
| Targets.LogTarget.Log | NXLogging/NXLogTarget.h:53-60 | appends exactly the one message, with its level; the configuration is untouched |
| Targets.Passes | NXLogging/NXLogTarget.h:45-46 | the target gating rule: a message is logged when its level is at most the target's maxLogLevel; NoneLogsNothing, AnyLogsEverything and ConcreteMaximum state its cases |
| Targets.NoneLogsNothing | NXLogging/NXLogTarget.h:45-46 | maximum level None admits only None itself, so no concrete level |
| Targets.AnyLogsEverything | NXLogging/NXLogTarget.h:45-46 | maximum level Any admits every level |
| Targets.ConcreteMaximum | NXLogging/NXLogTarget.h:45-46 | a concrete maximum admits exactly the levels at least as severe as itself |
| Loggers.Deliveries | NXLogging.framework/Headers/NXLogger.h:142-148 | the reference definition of dispatch: what each target, in order, writes for a call, at most one entry per target; DeliveriesSound and DeliveriesComplete state it in both directions |
| Loggers.DeliveriesSound | NXLogging.framework/Headers/NXLogger.h:142-148 | each delivery goes to a target that admits the level and carries that target's own rendering; deliveries are in strictly increasing target order |
| Loggers.DeliveriesComplete | NXLogging.framework/Headers/NXLogger.h:142-148 | every target that admits the level receives a delivery |
| Loggers.SilentWhenAllNone | NXLogging.framework/Headers/NXLogger.h:142-148 | when every target's maximum is None, a concretely levelled call writes nothing |
| Loggers.EveryTargetWhenAllPass | NXLogging.framework/Headers/NXLogger.h:142-148 | when every target admits the level, each target receives exactly one delivery, in order |
| Loggers.Without | NXLogging.framework/Headers/NXLogger.h:150-155 | the target is gone, nothing new appears, and every other target keeps its number of occurrences |
| Loggers.WithoutAbsent | NXLogging.framework/Headers/NXLogger.h:150-155 | removing a target that is not there changes nothing |
| Loggers.Logger.constructor | NXLogging.framework/Headers/NXLogger.h:127-137 | a logger with the given name and exactly the one target |
| Loggers.Logger.AddLogTarget | NXLogging.framework/Headers/NXLogger.h:142-148 | the target is appended; the previous targets remain, in order |
| Loggers.Logger.RemoveLogTarget | NXLogging.framework/Headers/NXLogger.h:150-155 | every occurrence of the target is removed; the other targets remain, in order |
| Loggers.Logger.Log | NXLogging.framework/Headers/NXLogger.h:210-220 | the deliveries are those of the call with the client info built from the info dictionary; each target has appended exactly its deliveries; no configuration changes |
| Loggers.Logger.Dispatch | NXLogging.framework/Headers/NXLogger.h:142-144 | the loop writes, target by target, exactly the deliveries of the call and keeps every configuration |
| Registry.LogRegistry.constructor | NXLogging/NXLogRegistry.h:36-53 | the registry starts with no logger registered |
| Registry.LogRegistry.LoggerNamed | NXLogging/NXLogRegistry.h:57-63 | the registered logger when there is one (and it bears the name), nil exactly when none is registered |
| Registry.LogRegistry.RegisterLogger | NXLogging/NXLogRegistry.h:65-72 | the logger is found under its name afterwards, replacing any previous one; every other name keeps its logger |
| Registry.RegisterTwice | NXLogging/NXLogRegistry.h:65-69 | of two loggers registered under the same name, only the second is found |
| StaticLoggers.LoggerNamed | NXLogging.framework/Headers/NXLogger.h:101-109 | a registered logger is returned and nothing changes; otherwise a new logger of that name with exactly the system and console targets is registered and returned |
| StaticLoggers.ApplicationLogger | NXLogging.framework/Headers/NXLogger.h:92-99 | the same, for the bundle identifier: a registered application logger is returned and nothing changes; otherwise a new one with the system and console targets is registered under that name and every other entry stays |
| StaticLoggers.RegisterLogger | NXLogging.framework/Headers/NXLogger.h:114-122 | stores the logger under its name, overwriting any logger of that name |
| StaticLoggers.LookUpTwice | NXLogging.framework/Headers/NXLogger.h:101-109 | two look-ups of the same name give the same logger |
| StaticLoggers.RegisterCustomLogger | NXLogging.framework/Headers/NXLogger.h:127-137 | a logger made with initWithName:target: is found by name only once it is registered |
| LoggerSwift.LevelFor | NXLogging/NXLogger.swift:98-112 | levelFor as a function of the requested level and what is logged; LevelForCases, LevelForDefaultsToConcreteLevel and LevelForNeverAny state its cases and bounds |
| LoggerSwift.LevelForCases | NXLogging/NXLogger.swift:98-112 | a level other than Any is kept; Any becomes Alert with an exception, else Error with an error, else Notice with a format, else Debug |
| LoggerSwift.LevelForDefaultsToConcreteLevel | NXLogging/NXLogger.swift:98-112 | a defaulted level is concrete, and an exception, an error and a format each make it more severe |
| LoggerSwift.LevelForNeverAny | NXLogging/NXLogger.swift:98-112 | levelFor never returns Any |
| LoggerSwift.SourceInfo | NXLogging/NXLogger.swift:57-61 | the dictionary holds function, file and line under their flags, and the module under its flag exactly when there is one |
| LoggerSwift.BuildSourceInfo | NXLogging/NXLogger.swift:85-89 | building the dictionary step by step gives that dictionary |
| LoggerSwift.SourceInfoReachesClient | NXLogging/NXLogger.swift:57-64 | the client info built from that dictionary carries the caller's function, file, line (in decimal) and module, and is exactly SwiftClient of the same arguments |
| SwiftCalls.SwiftClient | NXLogging/NXLogger.swift:57-64 | the client info of a Swift log call written out field by field: function, file, decimal line, optional module, and the environment for every other property |
| SwiftCalls.IsSwiftCall | NXLogging/NXLogger.swift:57-64 | what a Swift log call hands its logger: the level, SwiftClient, an error exactly when one was given (the same domain and code; for an NSError a new error with the same domain, code and userInfo; for an enum error a copy of its bridged error that keeps every userInfo entry and has the enum's text as its localized description), the exception, the format and the arguments |
| LoggerSwift.LoggerFor | NXLogging/NXLogger.swift:56 | no logger name selects the application logger, a name the logger of that name; the registry afterwards maps that name to it and every other name as before; its targets were registered before or are the shared system and console targets |
| Errors.DescribedCopy | NXLogging/helper/NSError+NXLogging.swift:52-61 | a copy of an error with the same domain, code and userInfo, except for a given text under the localized-description key |
| LoggerSwift.BridgeError | NXLogging/NXLogger.swift:64 | a Swift error is passed on as a new NSError with the same domain, code and userInfo (an enum error's bridged error with its text under the localized-description key and every other entry kept), nil as nil |
| LoggerSwift.PrepareCall | NXLogging/NXLogger.swift:85-92 | the info dictionary, the bridged error and the log call built from them satisfy IsSwiftCall |
| LoggerSwift.Send | NXLogging/NXLogger.swift:85-93 | the call satisfies IsSwiftCall; every target keeps its maximum level and formatter; the deliveries are those of the targets' settings before the call, and each target appends exactly its own |
| LoggerSwift.LogThrough | NXLogging/NXLogger.swift:117-193 | the global functions: the logger already registered under the name is the one used, or else a fresh one with exactly the system and console targets is registered; every other registry entry stays; the call satisfies IsSwiftCall at the level given; each of the logger's targets was registered or shared before, keeps its settings and appends exactly its deliveries; no other target writes anything |
| LoggerSwift.Log | NXLogging/NXLogger.swift:53-66 | the static log method: as LogThrough (the registered logger is reused, only its targets write), at the level levelFor picks, which is never Any |
| LoggerSwift.LogWith | NXLogging/NXLogger.swift:82-94 | the instance log method: as Send, at the level levelFor picks, which is never Any |
| Errors.LogInfo | NXLogging/helper/NSError+NXLogging.h:51-55 | logInfo: the localized description followed by the domain and the code; LogInfoIsOneLine states its shape |
| Errors.LogTrace | NXLogging/helper/NSError+NXLogging.h:45-49 | logTrace: the error's logInfo, then a newline and the underlying error's trace; TraceIsJoinOfBlocks and TraceLinesAreChain state it over the whole chain |
| Errors.RootCause | NXLogging/helper/NSError+NXLogging.h:45-49 | the last error of the chain has no underlying error |
| Errors.TraceBlocks | NXLogging/helper/NSError+NXLogging.h:45-49 | one block per error of the chain: this error's info first, the root cause's last |
| Errors.TraceOfSingleError | NXLogging/helper/NSError+NXLogging.h:45-49 | an error without an underlying error has its own info as its trace |
| Errors.TraceIsJoinOfBlocks | NXLogging/helper/NSError+NXLogging.h:45-49 | the trace is the chain's info blocks separated by single newlines |
| Errors.LogInfoIsOneLine | NXLogging/helper/NSError+NXLogging.h:51-55 | the info of an error whose description and domain are single lines is a single line |
| Errors.TraceLinesAreChain | NXLogging/helper/NSError+NXLogging.h:45-49 | the trace of single-line errors splits back into the chain's blocks, one line per error |
| Errors.ErrorWithDomain | NXLogging/helper/NSError+NXLogging.h:195-230 | keeps domain and code; the description, reason, suggestion and underlying error each sit under their key, and no other key is present |
| Errors.ErrorWithCode | NXLogging/helper/NSError+NXLogging.h:68-139 | the application error domain and the given code; the description, reason, suggestion and underlying error each sit under their key, and no other key is present |
| Errors.ErrorWithCodeUserInfo | NXLogging/helper/NSError+NXLogging.h:141-148 | the application error domain, the given code, and the userInfo as given |
| Errors.UnderlyingExtendsTrace | NXLogging/helper/NSError+NXLogging.h:97-105 | an error built with an underlying error puts its own info in front of the underlying trace, one link longer |
| Errors.ErrorFromSwift | NXLogging/helper/NSError+NXLogging.swift:37-64 | same domain and code; the original keys are kept unless overwritten; each supplied argument is under its key; an enum error's text is stored under the localized-description key and becomes the description; with nothing supplied an NSError comes back unchanged |
| Exceptions.LogInfo | NXLogging/helper/NSException+NXLogging.h:134-140 | logInfo: the exception's summary, followed by its stack symbols when they are asked for; InfoLines states its first line |
| Exceptions.LogTrace | NXLogging/helper/NSException+NXLogging.h:126-132 | logTrace: the exception's logInfo, then a newline and the trace of its cause; TraceIsJoinOfLines and the trace lemmas below state it over the chain |
| Exceptions.DefaultLogInfo | NXLogging/helper/NSException+NXLogging.h:55-59 | the logInfo property: logInfo: without stack symbols |
| Exceptions.DefaultLogTrace | NXLogging/helper/NSException+NXLogging.h:49-53 | the logTrace property: logTrace: without stack symbols |
| Exceptions.ExceptionWithName | NXLogging/helper/NSException+NXLogging.h:100-122 | the name, cause, reason and userInfo are the given ones, and there are no stack symbols yet |
| Exceptions.SetCause | NXLogging/helper/NSException+NXLogging.h:44-47 | only the cause changes |
| Exceptions.InfoLines | NXLogging/helper/NSException+NXLogging.h:134-140 | an exception's own block starts with its name-and-reason summary |
| Exceptions.TraceOfSingleException | NXLogging/helper/NSException+NXLogging.h:126-132 | an exception without a cause has its own info as its trace |
| Exceptions.TraceIsJoinOfLines | NXLogging/helper/NSException+NXLogging.h:126-132 | the trace is the lines of every exception of the chain, head first, separated by single newlines |
| Exceptions.LinesWithoutSymbolsAreSummaries | NXLogging/helper/NSException+NXLogging.h:126-132 | without symbols the trace's lines are exactly the chain's summaries |
| Exceptions.TraceWithoutSymbolsIsOneLinePerException | NXLogging/helper/NSException+NXLogging.h:49-53 | the trace of single-line exceptions without symbols has one line per exception: its summary |
| Exceptions.TraceWithSymbolsListsEverySymbol | NXLogging/helper/NSException+NXLogging.h:126-140 | with symbols the trace splits into each exception's summary followed by its stack symbols |
| Exceptions.TraceWithoutSymbolsIgnoresSymbols | NXLogging/helper/NSException+NXLogging.h:126-140 | without symbols the trace is that of the chain stripped of every stack symbol |
| Exceptions.SetCauseExtendsTrace | NXLogging/helper/NSException+NXLogging.h:44-53 | setting a cause puts the exception's own info in front of the cause's trace, one link longer |

## Left out

- Console and system-log targets (`NXConsoleLogTarget`, `NXSystemLogTarget`): they write to stderr, with colour escapes, or to the Apple System Log. Only the generic target contract is modelled.
- The layout of the basic formatter's message: its `messageForLogger:` is in the implementation file, which is not part of this model. Formatters are arbitrary functions, and only the basic formatter's settings are modelled.
- The date formatter is held as its date-format string. Dates themselves are not modelled.
- Process, device, date and operating-system properties of the client info: they come from the running environment, so they are a parameter (`environment`).
- printf-style expansion of `format` with `va_list` arguments: Foundation does it, so it is a `MessageText` handed to the formatter as is.
- The `NX_LOG_INFO` and `NXLog*` macros: they capture `__FUNCTION__`, `__FILE__` and `__LINE__` at compile time. The Swift counterparts are modelled with these values as parameters.
- The bundle identifier: it is read at run time, so it is the constant `Bundle.BundleIdentifier`.
- `probe:` and `raise:` of `NSException`: these are throw and catch control flow, not data logic.
- Cyclic cause chains: errors and exceptions are finite datatypes, so cycles cannot be expressed.
- Thread safety and the `atomic` qualifiers: the model is sequential.
- The singletons' `sharedInstance`: the shared registry and shared targets are passed as parameters.
- NSError subclasses and object identity: errors are values, so the Swift initializer's new NSError, built from the domain, code and userInfo of the one given, equals that error as a value. Overrides in a subclass (such as its own `localizedDescription`) and the difference between the object and its copy are not modelled.
- Errors.LocalizedDescription: when no description is stored, the model uses a fixed sentence naming the domain and the code. Foundation's own wording is not modelled.
- The `log:info:format:`, `log:info:error:` and `log:info:exception:` overloads (NXLogger.h:168-208) are not separate members. Each is `Loggers.Logger.Log` with a nil error, exception or format.
- The six global `NXLog*` Swift functions are not separate members. Each is `LoggerSwift.LogThrough` with or without a logger name, an error or an exception.
