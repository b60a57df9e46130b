/**
 * NSException with the NXLogging category: a settable cause linking an exception to the
 * exception underneath it, and logInfo / logTrace renderings with or without the
 * call-stack symbols.
 */
module Exceptions {
  import opened Optional
  import opened Text

  /**
   * An exception: its name, its reason (nil allowed), its userInfo, the call-stack symbols
   * captured when it was raised (empty for one that was never raised) and its cause.
   */
  datatype Exception = Exception(name: string, reason: Option<string>, userInfo: map<string, string>,
                                 callStackSymbols: seq<string>, cause: Option<Exception>)

  /** exceptionWithName:cause:reason:userInfo: (and the matching initializer): not yet raised. */
  function ExceptionWithName(name: string, cause: Option<Exception>, reason: Option<string>,
                             userInfo: map<string, string>): (r: Exception)
    ensures r.name == name && r.cause == cause && r.reason == reason && r.userInfo == userInfo
    ensures r.callStackSymbols == []
  {
    Exception(name, reason, userInfo, [], cause)
  }

  /** Setting the cause property: only the cause changes. */
  function SetCause(e: Exception, cause: Option<Exception>): (r: Exception)
    ensures r.cause == cause
    ensures r.name == e.name && r.reason == e.reason && r.userInfo == e.userInfo
    ensures r.callStackSymbols == e.callStackSymbols
  {
    e.(cause := cause)
  }

  /** The one-line summary of an exception: its name and, when there is one, its reason. */
  function Summary(e: Exception): string
  {
    match e.reason
    case None => e.name
    case Some(reason) => e.name + ": " + reason
  }

  /** The lines of an exception's own block: the summary, then the stack symbols when asked for. */
  function InfoLines(e: Exception, includeSymbols: bool): (lines: seq<string>)
    ensures |lines| >= 1 && lines[0] == Summary(e)
  {
    [Summary(e)] + (if includeSymbols then e.callStackSymbols else [])
  }

  /** logInfo: — the exception's name and reason, followed by its stack symbols when includeSymbols. */
  function LogInfo(e: Exception, includeSymbols: bool): string
  {
    Join(InfoLines(e, includeSymbols))
  }

  /** logTrace: — this exception's info, then a newline and the trace of its cause, if any. */
  function LogTrace(e: Exception, includeSymbols: bool): string
  {
    match e.cause
    case None => LogInfo(e, includeSymbols)
    case Some(c) => LogInfo(e, includeSymbols) + [Newline] + LogTrace(c, includeSymbols)
  }

  /** The logInfo property: the rendering without stack symbols. */
  function DefaultLogInfo(e: Exception): string
  {
    LogInfo(e, false)
  }

  /** The logTrace property: the rendering without stack symbols. */
  function DefaultLogTrace(e: Exception): string
  {
    LogTrace(e, false)
  }

  /** The number of exceptions in the chain that starts at e. */
  function ChainLength(e: Exception): (n: nat)
    ensures n >= 1
  {
    match e.cause
    case None => 1
    case Some(c) => 1 + ChainLength(c)
  }

  /** The summaries of the chain, head first. */
  function Summaries(e: Exception): (s: seq<string>)
    ensures |s| == ChainLength(e) && s[0] == Summary(e)
  {
    match e.cause
    case None => [Summary(e)]
    case Some(c) => [Summary(e)] + Summaries(c)
  }

  /** Every line of the trace, head first: each exception's own lines followed by its cause's. */
  function TraceLines(e: Exception, includeSymbols: bool): (lines: seq<string>)
    ensures |lines| >= ChainLength(e)
  {
    match e.cause
    case None => InfoLines(e, includeSymbols)
    case Some(c) => InfoLines(e, includeSymbols) + TraceLines(c, includeSymbols)
  }

  /** The same chain with every call-stack symbol list emptied. */
  function WithoutSymbols(e: Exception): (r: Exception)
    ensures r.name == e.name && r.reason == e.reason && r.callStackSymbols == []
    ensures ChainLength(r) == ChainLength(e)
  {
    match e.cause
    case None => e.(callStackSymbols := [])
    case Some(c) => e.(callStackSymbols := [], cause := Some(WithoutSymbols(c)))
  }

  /** An exception without a cause has only its own block as its trace. */
  lemma TraceOfSingleException(e: Exception, includeSymbols: bool)
    requires e.cause.None?
    ensures LogTrace(e, includeSymbols) == LogInfo(e, includeSymbols)
  {
  }

  /** The trace is all of its lines, head first, separated by single newlines. */
  lemma {:induction false} TraceIsJoinOfLines(e: Exception, includeSymbols: bool)
    ensures LogTrace(e, includeSymbols) == Join(TraceLines(e, includeSymbols))
    decreases e
  {
    match e.cause
    case None =>
    case Some(c) =>
      TraceIsJoinOfLines(c, includeSymbols);
      JoinAppend(InfoLines(e, includeSymbols), TraceLines(c, includeSymbols));
  }

  /** Without symbols, the lines of the trace are exactly the summaries of the chain. */
  lemma {:induction false} LinesWithoutSymbolsAreSummaries(e: Exception)
    ensures TraceLines(e, false) == Summaries(e)
    decreases e
  {
    match e.cause
    case None =>
    case Some(c) => LinesWithoutSymbolsAreSummaries(c);
  }

  /** No exception of the chain has a newline in its name, reason or any stack symbol. */
  predicate SingleLineChain(e: Exception)
    decreases e
  {
    && SingleLines(InfoLines(e, true))
    && match e.cause
       case None => true
       case Some(c) => SingleLineChain(c)
  }

  lemma {:induction false} SingleLineTrace(e: Exception, includeSymbols: bool)
    requires SingleLineChain(e)
    ensures SingleLines(TraceLines(e, includeSymbols))
    decreases e
  {
    match e.cause
    case None =>
    case Some(c) => SingleLineTrace(c, includeSymbols);
  }

  /**
   * Without symbols, a trace of single-line exceptions splits into one line per exception
   * of the chain: each exception's summary, head first.
   */
  lemma {:induction false} TraceWithoutSymbolsIsOneLinePerException(e: Exception)
    requires SingleLineChain(e)
    ensures Split(LogTrace(e, false)) == Summaries(e)
    ensures |Split(LogTrace(e, false))| == ChainLength(e)
  {
    TraceIsJoinOfLines(e, false);
    SingleLineTrace(e, false);
    SplitJoin(TraceLines(e, false));
    LinesWithoutSymbolsAreSummaries(e);
  }

  /**
   * With symbols, a trace of single-line exceptions splits into each exception's summary
   * followed by its own call-stack symbols, head first.
   */
  lemma {:induction false} TraceWithSymbolsListsEverySymbol(e: Exception)
    requires SingleLineChain(e)
    ensures Split(LogTrace(e, true)) == TraceLines(e, true)
    ensures Split(LogTrace(e, true))[..1 + |e.callStackSymbols|] == [Summary(e)] + e.callStackSymbols
  {
    TraceIsJoinOfLines(e, true);
    SingleLineTrace(e, true);
    SplitJoin(TraceLines(e, true));
    match e.cause
    case None =>
    case Some(c) =>
      assert TraceLines(e, true)[..1 + |e.callStackSymbols|] == InfoLines(e, true);
  }

  /** Without symbols the trace carries no stack trace: it is that of the chain stripped of all symbols. */
  lemma {:induction false} TraceWithoutSymbolsIgnoresSymbols(e: Exception)
    ensures LogTrace(e, false) == LogTrace(WithoutSymbols(e), false)
    ensures LogTrace(e, false) == LogTrace(WithoutSymbols(e), true)
    decreases e
  {
    match e.cause
    case None =>
    case Some(c) => TraceWithoutSymbolsIgnoresSymbols(c);
  }

  /** Setting a cause puts the exception's own info in front of the cause's trace. */
  lemma SetCauseExtendsTrace(e: Exception, c: Exception, includeSymbols: bool)
    ensures LogTrace(SetCause(e, Some(c)), includeSymbols)
            == LogInfo(e, includeSymbols) + [Newline] + LogTrace(c, includeSymbols)
    ensures ChainLength(SetCause(e, Some(c))) == 1 + ChainLength(c)
  {
    var r := SetCause(e, Some(c));
    assert InfoLines(r, includeSymbols) == InfoLines(e, includeSymbols);
  }
}
