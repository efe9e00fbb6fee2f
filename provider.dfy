/** The logger provider (DatabaseLoggerProvider.cs): one emitter per source
    name, all sharing one collector; option reloads and disposal reach every
    emitter created so far. `loggers` stands for the concurrent dictionary. */
module Providers {
  import opened Base
  import opened Configuration
  import opened Collecting
  import opened Logging

  class LoggerProvider {
    /** `_filter`: the filter supplied at construction, possibly null. */
    const filterSetting: Nullable<Filter>
    const collector: LogCollector
    var options: LoggerOptions
    var loggers: map<string, DatabaseLogger>

    /** Every cached logger is filed under its own name and writes to the
        provider's collector. */
    ghost predicate Valid()
      reads this, loggers.Values
    {
      forall n | n in loggers :: loggers[n].name == n && loggers[n].collector == collector
    }

    /** The constructor for manual set-up. */
    constructor (collector: LogCollector, options: LoggerOptions, filter: Nullable<Filter>)
      ensures Valid() && loggers == map[]
      ensures this.collector == collector && this.options == options && filterSetting == filter
    {
      this.collector := collector;
      this.options := options;
      filterSetting := filter;
      loggers := map[];
    }

    /** The constructor for an options monitor, given its current value; it
        always installs the accept-all filter. */
    constructor FromMonitor(collector: LogCollector, currentOptions: LoggerOptions)
      ensures Valid() && loggers == map[]
      ensures this.collector == collector && options == currentOptions
      ensures filterSetting == NotNull(AcceptAll)
    {
      this.collector := collector;
      options := currentOptions;
      filterSetting := NotNull(AcceptAll);
      loggers := map[];
    }

    /** The private `Filter` property: the supplied filter, or accept-all. */
    function EffectiveFilter(): (r: Filter)
      ensures filterSetting.NotNull? ==> r == filterSetting.value
      ensures filterSetting.Null? ==> r == AcceptAll
    {
      if filterSetting.Null? then AcceptAll else filterSetting.value
    }

    /** `CreateLogger`: `GetOrAdd` on the cache. A new logger gets the current
        options, the shared collector, a fresh scope provider and the
        effective filter. */
    method CreateLogger(name: string) returns (logger: DatabaseLogger)
      requires Valid()
      modifies this`loggers
      ensures Valid()
      ensures name in loggers && loggers[name] == logger && logger.name == name
      ensures name in old(loggers) ==> logger == old(loggers)[name] && loggers == old(loggers)
      ensures name !in old(loggers) ==>
        && loggers == old(loggers)[name := logger]
        && fresh(logger) && logger.collector == collector
        && logger.filter == EffectiveFilter()
        && logger.includeScopes == options.includeScopes && !logger.disposed
        && logger.scopeProvider != null && fresh(logger.scopeProvider) && logger.scopeProvider.scopes == []
    {
      if name in loggers {
        return loggers[name];
      }
      var scopeProvider := new ScopeProvider();
      logger := new DatabaseLogger(name, collector, options, scopeProvider, NotNull(EffectiveFilter()));
      loggers := loggers[name := logger];
    }

    /** `ReloadOptions`: the new options replace the old ones and every cached
        logger takes over their scope flag; the cache itself is unchanged. */
    method ReloadOptions(newOptions: LoggerOptions)
      requires Valid()
      modifies this`options, (set l | l in loggers.Values)`includeScopes
      ensures Valid() && options == newOptions
      ensures forall l | l in loggers.Values :: l.includeScopes == newOptions.includeScopes
    {
      options := newOptions;
      var pending := loggers.Values;
      while pending != {}
        invariant pending <= loggers.Values
        invariant forall l | l in loggers.Values - pending :: l.includeScopes == newOptions.includeScopes
        modifies (set l | l in loggers.Values)`includeScopes
        decreases pending
      {
        var l :| l in pending;
        l.LoadOptions(newOptions);
        pending := pending - {l};
      }
    }

    /** `Dispose`: every cached logger is disposed. */
    method Dispose()
      requires Valid()
      modifies (set l | l in loggers.Values)`disposed
      ensures Valid()
      ensures forall l | l in loggers.Values :: l.disposed
    {
      var pending := loggers.Values;
      while pending != {}
        invariant pending <= loggers.Values
        invariant forall l | l in loggers.Values - pending :: l.disposed
        decreases pending
      {
        var l :| l in pending;
        l.Dispose();
        pending := pending - {l};
      }
    }
  }
}
