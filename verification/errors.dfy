/**
 * NSError as the logging library sees it: a domain, a code and a userInfo dictionary,
 * whose NSUnderlyingErrorKey entry links an error to the error that caused it.
 * Covers the NSError (NXLogging) category: logInfo, logTrace, the convenience
 * initializers, and the Swift initializer that wraps any ErrorType.
 */
module Errors {
  import opened Optional
  import opened Text
  import Bundle

  /** The Foundation userInfo keys the library writes. */
  const LocalizedDescriptionKey: string := "NSLocalizedDescription"
  const LocalizedFailureReasonErrorKey: string := "NSLocalizedFailureReason"
  const LocalizedRecoverySuggestionErrorKey: string := "NSLocalizedRecoverySuggestion"
  const UnderlyingErrorKey: string := "NSUnderlyingError"

  /** A userInfo value: a string, a nested error, or any other object (known by its description). */
  datatype UserInfoValue = StringValue(text: string) | ErrorValue(error: NSError) | Object(description: string)

  datatype NSError = NSError(domain: string, code: int, userInfo: map<string, UserInfoValue>)

  /** The application error domain, derived from the bundle identifier. */
  const ApplicationErrorDomain: string := Bundle.BundleIdentifier

  /** The next link of the chain: the error stored under NSUnderlyingErrorKey, if any. */
  function Underlying(e: NSError): (u: Option<NSError>)
    ensures u.Some? ==> u.value < e
  {
    if UnderlyingErrorKey in e.userInfo && e.userInfo[UnderlyingErrorKey].ErrorValue?
    then Some(e.userInfo[UnderlyingErrorKey].error)
    else None
  }

  /**
   * Foundation's localizedDescription: the string under NSLocalizedDescriptionKey, or else
   * a generic sentence naming the domain and the code.
   */
  function LocalizedDescription(e: NSError): string
  {
    if LocalizedDescriptionKey in e.userInfo && e.userInfo[LocalizedDescriptionKey].StringValue?
    then e.userInfo[LocalizedDescriptionKey].text
    else "The operation couldn\U{2019}t be completed. (" + e.domain + " error " + Decimal(e.code) + ".)"
  }

  /** logInfo: the localized description, then the domain and the code. */
  function LogInfo(e: NSError): string
  {
    LocalizedDescription(e) + " (" + e.domain + " " + Decimal(e.code) + ")"
  }

  /** The number of errors in the chain that starts at e. */
  function ChainLength(e: NSError): (n: nat)
    ensures n >= 1
  {
    match Underlying(e)
    case None => 1
    case Some(u) => 1 + ChainLength(u)
  }

  /** The last error of the chain: the one without an underlying error. */
  function RootCause(e: NSError): (r: NSError)
    ensures Underlying(r).None?
  {
    match Underlying(e)
    case None => e
    case Some(u) => RootCause(u)
  }

  /** The info blocks of the chain, head first. */
  function TraceBlocks(e: NSError): (blocks: seq<string>)
    ensures |blocks| == ChainLength(e)
    ensures blocks[0] == LogInfo(e)
    ensures blocks[|blocks| - 1] == LogInfo(RootCause(e))
  {
    match Underlying(e)
    case None => [LogInfo(e)]
    case Some(u) =>
      var rest := TraceBlocks(u);
      LastOfPrepended(LogInfo(e), rest);
      assert RootCause(e) == RootCause(u);
      [LogInfo(e)] + rest
  }

  /** logTrace: this error's info, then a newline and the trace of the underlying error, if any. */
  function LogTrace(e: NSError): string
  {
    match Underlying(e)
    case None => LogInfo(e)
    case Some(u) => LogInfo(e) + [Newline] + LogTrace(u)
  }

  /** An error without an underlying error has its own info as its trace. */
  lemma TraceOfSingleError(e: NSError)
    requires Underlying(e).None?
    ensures LogTrace(e) == LogInfo(e)
  {
  }

  /** The trace is the chain's info blocks, head first, separated by single newlines. */
  lemma {:induction false} TraceIsJoinOfBlocks(e: NSError)
    ensures LogTrace(e) == Join(TraceBlocks(e))
    decreases e
  {
    match Underlying(e)
    case None =>
    case Some(u) =>
      TraceIsJoinOfBlocks(u);
      assert TraceBlocks(e) == [LogInfo(e)] + TraceBlocks(u);
      JoinAppend([LogInfo(e)], TraceBlocks(u));
  }

  /** No error of the chain has a newline in its description or domain. */
  predicate SingleLineChain(e: NSError)
    decreases e
  {
    && Newline !in LocalizedDescription(e)
    && Newline !in e.domain
    && match Underlying(e)
       case None => true
       case Some(u) => SingleLineChain(u)
  }

  /** Info lines of single-line errors hold no newline. */
  lemma LogInfoIsOneLine(e: NSError)
    requires Newline !in LocalizedDescription(e) && Newline !in e.domain
    ensures Newline !in LogInfo(e)
  {
  }

  /**
   * For a chain of single-line errors the trace splits back, line by line, into the chain's
   * info blocks; so it has exactly as many lines as the chain has errors, the root cause last.
   */
  lemma {:induction false} TraceLinesAreChain(e: NSError)
    requires SingleLineChain(e)
    ensures Split(LogTrace(e)) == TraceBlocks(e)
    ensures |Split(LogTrace(e))| == ChainLength(e)
  {
    SingleLineBlocks(e);
    TraceIsJoinOfBlocks(e);
    SplitJoin(TraceBlocks(e));
  }

  lemma {:induction false} SingleLineBlocks(e: NSError)
    requires SingleLineChain(e)
    ensures SingleLines(TraceBlocks(e))
    decreases e
  {
    LogInfoIsOneLine(e);
    match Underlying(e)
    case None =>
    case Some(u) =>
      SingleLineBlocks(u);
      assert TraceBlocks(e) == [LogInfo(e)] + TraceBlocks(u);
  }

  /** A key set holding k exactly when the optional value is present. */
  function KeyIf<T>(v: Option<T>, k: string): set<string>
  {
    if v.Some? then {k} else {}
  }

  /** A userInfo map with the optional entries written in, each only when it is present. */
  function WithOptionalEntries(info: map<string, UserInfoValue>, reason: Option<string>,
                               suggestion: Option<string>, underlying: Option<NSError>): map<string, UserInfoValue>
  {
    var withReason := if reason.Some? then info[LocalizedFailureReasonErrorKey := StringValue(reason.value)] else info;
    var withSuggestion :=
      if suggestion.Some? then withReason[LocalizedRecoverySuggestionErrorKey := StringValue(suggestion.value)]
      else withReason;
    if underlying.Some? then withSuggestion[UnderlyingErrorKey := ErrorValue(underlying.value)]
    else withSuggestion
  }

  /**
   * The errorWithDomain:code:description:[reason:][suggestion:][underlyingError:] family:
   * an absent argument is None. The description goes under NSLocalizedDescriptionKey, the
   * reason under NSLocalizedFailureReasonErrorKey, the suggestion under
   * NSLocalizedRecoverySuggestionErrorKey and the underlying error under NSUnderlyingErrorKey.
   */
  function ErrorWithDomain(domain: string, code: int, description: string, reason: Option<string>,
                           suggestion: Option<string>, underlying: Option<NSError>): (r: NSError)
    ensures r.domain == domain && r.code == code
    ensures LocalizedDescription(r) == description
    ensures r.userInfo.Keys == {LocalizedDescriptionKey} + KeyIf(reason, LocalizedFailureReasonErrorKey)
                               + KeyIf(suggestion, LocalizedRecoverySuggestionErrorKey)
                               + KeyIf(underlying, UnderlyingErrorKey)
    ensures reason.Some? ==> r.userInfo[LocalizedFailureReasonErrorKey] == StringValue(reason.value)
    ensures suggestion.Some? ==> r.userInfo[LocalizedRecoverySuggestionErrorKey] == StringValue(suggestion.value)
    ensures Underlying(r) == underlying
  {
    NSError(domain, code, WithOptionalEntries(map[LocalizedDescriptionKey := StringValue(description)],
                                              reason, suggestion, underlying))
  }

  /** The errorWithCode:description:... family: ErrorWithDomain in the application error domain. */
  function ErrorWithCode(code: int, description: string, reason: Option<string>,
                         suggestion: Option<string>, underlying: Option<NSError>): (r: NSError)
    ensures r.domain == ApplicationErrorDomain && r.code == code
    ensures LocalizedDescription(r) == description
    ensures r.userInfo.Keys == {LocalizedDescriptionKey} + KeyIf(reason, LocalizedFailureReasonErrorKey)
                               + KeyIf(suggestion, LocalizedRecoverySuggestionErrorKey)
                               + KeyIf(underlying, UnderlyingErrorKey)
    ensures reason.Some? ==> r.userInfo[LocalizedFailureReasonErrorKey] == StringValue(reason.value)
    ensures suggestion.Some? ==> r.userInfo[LocalizedRecoverySuggestionErrorKey] == StringValue(suggestion.value)
    ensures Underlying(r) == underlying
  {
    ErrorWithDomain(ApplicationErrorDomain, code, description, reason, suggestion, underlying)
  }

  /** errorWithCode:userInfo: keeps the dictionary as it is, in the application error domain. */
  function ErrorWithCodeUserInfo(code: int, userInfo: map<string, UserInfoValue>): (r: NSError)
    ensures r.domain == ApplicationErrorDomain && r.code == code && r.userInfo == userInfo
  {
    NSError(ApplicationErrorDomain, code, userInfo)
  }

  /** An error built with an underlying error puts its own info in front of the underlying trace. */
  lemma {:induction false} UnderlyingExtendsTrace(domain: string, code: int, description: string,
                                                  reason: Option<string>, suggestion: Option<string>, u: NSError)
    ensures var e := ErrorWithDomain(domain, code, description, reason, suggestion, Some(u));
      && LogTrace(e) == LogInfo(e) + [Newline] + LogTrace(u)
      && ChainLength(e) == 1 + ChainLength(u)
      && TraceBlocks(e) == [LogInfo(e)] + TraceBlocks(u)
  {
    var e := ErrorWithDomain(domain, code, description, reason, suggestion, Some(u));
    assert Underlying(e) == Some(u);
  }

  /**
   * A Swift ErrorType: either an NSError object, or a value of a Swift error enum, which
   * bridges to an NSError and prints as its textual form.
   */
  datatype SwiftError = ObjectError(instance: NSError) | EnumError(bridged: NSError, text: string)

  /**
   * r is a copy of e that stores text as its localized description and keeps every other
   * userInfo entry of e.
   */
  predicate DescribedCopy(r: NSError, e: NSError, text: string)
  {
    && r.domain == e.domain && r.code == e.code
    && r.userInfo.Keys == e.userInfo.Keys + {LocalizedDescriptionKey}
    && r.userInfo[LocalizedDescriptionKey] == StringValue(text)
    && forall k :: k in e.userInfo && k != LocalizedDescriptionKey ==> r.userInfo[k] == e.userInfo[k]
  }

  /** The error seen as an NSError (the Swift cast `error as NSError`). */
  function AsNSError(error: SwiftError): NSError
  {
    match error
    case ObjectError(instance) => instance
    case EnumError(bridged, _) => bridged
  }

  /**
   * The Swift initializer NSError(error, reason:, suggestion:, underlyingError:): copies the
   * error's userInfo, writes each supplied argument into the copy, and for an enum error also
   * stores its textual form as the localized description.
   */
  method ErrorFromSwift(error: SwiftError, reason: Option<string>, suggestion: Option<string>,
                        underlyingError: Option<NSError>) returns (r: NSError)
    ensures r.domain == AsNSError(error).domain && r.code == AsNSError(error).code
    ensures r.userInfo.Keys == AsNSError(error).userInfo.Keys
                               + KeyIf(reason, LocalizedFailureReasonErrorKey)
                               + KeyIf(suggestion, LocalizedRecoverySuggestionErrorKey)
                               + KeyIf(underlyingError, UnderlyingErrorKey)
                               + (if error.EnumError? then {LocalizedDescriptionKey} else {})
    ensures forall k :: k in AsNSError(error).userInfo
                        && (reason.Some? ==> k != LocalizedFailureReasonErrorKey)
                        && (suggestion.Some? ==> k != LocalizedRecoverySuggestionErrorKey)
                        && (underlyingError.Some? ==> k != UnderlyingErrorKey)
                        && (error.EnumError? ==> k != LocalizedDescriptionKey)
                        ==> r.userInfo[k] == AsNSError(error).userInfo[k]
    ensures reason.Some? ==> r.userInfo[LocalizedFailureReasonErrorKey] == StringValue(reason.value)
    ensures suggestion.Some? ==> r.userInfo[LocalizedRecoverySuggestionErrorKey] == StringValue(suggestion.value)
    ensures underlyingError.Some? ==> Underlying(r) == underlyingError
    ensures error.EnumError? ==> r.userInfo[LocalizedDescriptionKey] == StringValue(error.text)
    ensures error.EnumError? ==> LocalizedDescription(r) == error.text
    ensures error.ObjectError? ==> LocalizedDescription(r) == LocalizedDescription(error.instance)
    ensures error.ObjectError? && reason.None? && suggestion.None? && underlyingError.None? ==> r == error.instance
  {
    var nserror := AsNSError(error);
    var dict := nserror.userInfo;
    if reason.Some? {
      dict := dict[LocalizedFailureReasonErrorKey := StringValue(reason.value)];
    }
    if suggestion.Some? {
      dict := dict[LocalizedRecoverySuggestionErrorKey := StringValue(suggestion.value)];
    }
    if underlyingError.Some? {
      dict := dict[UnderlyingErrorKey := ErrorValue(underlyingError.value)];
    }
    if error.ObjectError? {
      r := NSError(nserror.domain, nserror.code, dict);
    } else {
      dict := dict[LocalizedDescriptionKey := StringValue(error.text)];
      r := NSError(nserror.domain, nserror.code, dict);
    }
  }
}
