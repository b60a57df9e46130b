/**
 * NXLogRegistry: the name-to-logger dictionary through which the static logger functions find
 * loggers again, and those static functions themselves (loggerNamed:, applicationLogger,
 * registerLogger:).
 */
module Registry {
  import opened Optional
  import opened Loggers

  class LogRegistry<M> {
    var loggers: map<string, Logger<M>>

    /** Every logger is registered under its own name. */
    ghost predicate Valid()
      reads this
    {
      forall n :: n in loggers ==> loggers[n].name == n
    }

    /** A registry with no logger registered. */
    constructor ()
      ensures loggers == map[] && Valid()
    {
      loggers := map[];
    }

    /** loggerNamed: — the logger registered under the name, or nil when there is none. */
    function LoggerNamed(name: string): (r: Option<Logger<M>>)
      reads this
      ensures r.Some? <==> name in loggers
      ensures r.Some? ==> r.value == loggers[name]
      ensures Valid() && r.Some? ==> r.value.name == name
    {
      if name in loggers then Some(loggers[name]) else None
    }

    /**
     * registerLogger: — the logger is stored under its name, replacing any logger registered
     * under that name; every other name keeps its logger.
     */
    method RegisterLogger(logger: Logger<M>)
      modifies this
      requires Valid()
      ensures Valid()
      ensures loggers == old(loggers)[logger.name := logger]
      ensures LoggerNamed(logger.name) == Some(logger)
      ensures forall n :: n != logger.name ==> LoggerNamed(n) == old(LoggerNamed(n))
    {
      loggers := loggers[logger.name := logger];
    }
  }

  /** Registering two loggers of the same name keeps only the second. */
  method RegisterTwice<M>(registry: LogRegistry<M>, first: Logger<M>, second: Logger<M>)
    requires registry.Valid() && first.name == second.name
    modifies registry
    ensures registry.Valid()
    ensures registry.LoggerNamed(first.name) == Some(second)
    ensures registry.loggers.Keys == old(registry.loggers.Keys) + {first.name}
  {
    registry.RegisterLogger(first);
    registry.RegisterLogger(second);
  }
}

/**
 * The static initializers of NXLogger. The shared registry and the shared system and console
 * targets are passed in; a logger created here logs to those two targets.
 */
module StaticLoggers {
  import opened Optional
  import opened Targets
  import opened Loggers
  import opened Registry
  import Bundle

  /**
   * loggerNamed: — the logger registered under the name; when there is none, a new logger of
   * that name with exactly the system and the console target, registered before it is returned.
   */
  method LoggerNamed<M>(registry: LogRegistry<M>, system: LogTarget<M>, console: LogTarget<M>, name: string)
    returns (logger: Logger<M>)
    requires registry.Valid()
    modifies registry
    ensures registry.Valid()
    ensures logger.name == name
    ensures registry.LoggerNamed(name) == Some(logger)
    ensures name in old(registry.loggers) ==> logger == old(registry.loggers[name]) && registry.loggers == old(registry.loggers)
    ensures name !in old(registry.loggers) ==>
              && fresh(logger) && logger.targets == [system, console]
              && registry.loggers == old(registry.loggers)[name := logger]
  {
    match registry.LoggerNamed(name)
    case Some(found) =>
      logger := found;
    case None =>
      logger := new Logger(name, system);
      logger.AddLogTarget(console);
      registry.RegisterLogger(logger);
  }

  /** applicationLogger — the logger named after the application's bundle identifier. */
  method ApplicationLogger<M>(registry: LogRegistry<M>, system: LogTarget<M>, console: LogTarget<M>)
    returns (logger: Logger<M>)
    requires registry.Valid()
    modifies registry
    ensures registry.Valid()
    ensures logger.name == Bundle.BundleIdentifier
    ensures registry.LoggerNamed(Bundle.BundleIdentifier) == Some(logger)
    ensures Bundle.BundleIdentifier in old(registry.loggers) ==>
              logger == old(registry.loggers)[Bundle.BundleIdentifier] && registry.loggers == old(registry.loggers)
    ensures Bundle.BundleIdentifier !in old(registry.loggers) ==>
              && fresh(logger) && logger.targets == [system, console]
              && registry.loggers == old(registry.loggers)[Bundle.BundleIdentifier := logger]
  {
    logger := LoggerNamed(registry, system, console, Bundle.BundleIdentifier);
  }

  /** registerLogger: — registration with the shared registry. */
  method RegisterLogger<M>(registry: LogRegistry<M>, logger: Logger<M>)
    requires registry.Valid()
    modifies registry
    ensures registry.Valid()
    ensures registry.loggers == old(registry.loggers)[logger.name := logger]
  {
    registry.RegisterLogger(logger);
  }

  /** Two successive look-ups of the same name give the same logger. */
  method LookUpTwice<M>(registry: LogRegistry<M>, system: LogTarget<M>, console: LogTarget<M>, name: string)
    returns (first: Logger<M>, second: Logger<M>)
    requires registry.Valid()
    modifies registry
    ensures first == second && first.name == name
  {
    first := LoggerNamed(registry, system, console, name);
    second := LoggerNamed(registry, system, console, name);
  }

  /** A logger made with initWithName:target: is not found until it is registered; afterwards it is. */
  method RegisterCustomLogger<M>(registry: LogRegistry<M>, target: LogTarget<M>, name: string)
    returns (logger: Logger<M>)
    requires registry.Valid() && name !in registry.loggers
    modifies registry
    ensures logger.targets == [target]
    ensures registry.LoggerNamed(name) == Some(logger)
  {
    logger := new Logger(name, target);
    assert registry.LoggerNamed(name) == None;
    RegisterLogger(registry, logger);
  }
}
