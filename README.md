# DatabaseLogger buffer-and-flush pipeline, in Dafny

A model of the core of VNetDev.LoggerService.Database, a buffered log sink for
Microsoft.Extensions.Logging. Application code logs through a `DatabaseLogger`
(one per source name, handed out by a `DatabaseLoggerProvider`). Each enabled
call builds one `DatabaseLoggerLogEntry` and enqueues it on a shared
`DatabaseLoggerCollector`. A flush cycle (`DatabaseLoggerLogHandler.ProcessAsync`)
drains the collector into a batch and stages the batch in the database context.
It then saves, and enqueues again every entry the save left without an `Id`.

The model is sequential. The concurrent queue and dictionary become a `seq` and
a `map` that the methods reassign. Objects that the source updates in place are
classes: entries, options, collector, handler, loggers and provider. The
database context is the class `Storage.LogStore`. Its `SaveChanges` may throw,
or may give a nonzero `id` to any subset of the staged entries, and it returns
any count. A ghost log of the calls made on the store lets the flush cycle state
that the whole batch is staged in one call before a single save, and that the
save's result is what the cycle returns.

Files, one module each: `base.dfy` (nullable values, results, the exceptions
thrown), `log_entry.dfy`, `options.dfy`, `collector.dfy`, `storage.dfy`,
`log_handler.dfy`, `logger.dfy`, `provider.dfy`.

Behaviour of the code that the model keeps as written:

- The `ExceptionMessage` setter calls `Substring(0, 20480)`. That call does
  not shorten text: it throws `ArgumentOutOfRangeException` for any non-blank
  text shorter than 20480 characters. So `Log` with an ordinary exception
  throws and enqueues nothing. The blank check runs before the cut, so a
  stored message can itself be blank.
- When the save throws, `ProcessAsync` puts nothing back: the drained entries
  are lost for that cycle, and `Process` states this.
- `Log` checks disposal first, then the level, then the formatter. So a null
  formatter on a disabled level returns quietly.
- With scopes included and a provider attached, `Log` reads the scopes before
  it sets the exception message. A null scope state makes `scope.ToString()`
  throw `NullReferenceException`, and nothing is enqueued; a state whose
  `ToString()` returns null is joined as "".

## Model

| member | source | states |
|---|---|---|
| LogEntries.NormalizeScope | DatabaseLoggerLogEntry.cs:52-58 | the stored scope is null exactly for null, empty or white-space-only input, and otherwise the input unchanged with no length limit; it is never blank |
| LogEntries.NormalizeScopeIdempotent | DatabaseLoggerLogEntry.cs:55-57 | setting `Scope` to its own stored value changes nothing |
| LogEntries.NormalizeExceptionMessage | DatabaseLoggerLogEntry.cs:63-69 | blank input stores null; non-blank input shorter than 20480 characters throws `ArgumentOutOfRange("length")`; longer input stores exactly its first 20480 characters |
| LogEntries.StoredExceptionMessageMayBeBlank | DatabaseLoggerLogEntry.cs:66-68 | some non-blank input (20480 spaces then "x") makes the setter store a white-space-only message |
| LogEntries.LogEntry.constructor | DatabaseLoggerLogEntry.cs:19-46 | a new entry has `Id == 0` (never persisted), the given UTC time, and null scope and exception message |
| LogEntries.LogEntry.SetScope | DatabaseLoggerLogEntry.cs:52-58 | the `Scope` setter stores the normalised value and changes no other field |
| LogEntries.LogEntry.SetExceptionMessage | DatabaseLoggerLogEntry.cs:63-69 | the `ExceptionMessage` setter stores the normalised value, or throws and keeps the old one |
| LogEntries.ScopeSegmentOnlyWhenSet | DatabaseLoggerLogEntry.cs:75-79 | `ToString` of an entry with a scope is its text without one, with exactly "Scope: '<scope>', " inserted after the source segment |
| LogEntries.ExceptionMessageAtEnd | DatabaseLoggerLogEntry.cs:75-79 | `ToString` ends with "ExceptionMessage: '<message>'", printing `<null>` when there is no message |
| LogEntries.LogEntry.ToText | DatabaseLoggerLogEntry.cs:75-79 | `ToString` opens with "[<Id>] <LogLevel>: LogUtcTime: '" and closes with "ExceptionMessage: '<message>'", printing `<null>` when there is no message |
| Configuration.LoggerOptions.constructor | DatabaseLoggerOptions.cs:10-18 | new options have `SyncInterval == 5`, no context type and `IncludeScopes == false` |
| Configuration.LoggerOptions.WithContextType | DatabaseLoggerOptions.cs:24-27 | the type constructor succeeds exactly when the type implements the context interface, otherwise it throws the `DbContextType` argument error |
| Configuration.LoggerOptions.SetDbContextType | DatabaseLoggerOptions.cs:32-39 | a type is stored exactly when it implements the context interface (null never does); otherwise the setter throws and the field is unchanged |
| Configuration.LoggerOptions.SetSyncInterval | DatabaseLoggerOptions.cs:49-55 | values above 1 are stored, values of 1 or less throw and leave the old value, so the stored interval stays in 2..255 |
| Collecting.LogCollector.constructor | DatabaseLoggerCollector.cs:13-14 | a new collector is empty |
| Collecting.LogCollector.AddEntry | DatabaseLoggerCollector.cs:16 | the entry is appended at the tail |
| Collecting.LogCollector.TryGetEntry | DatabaseLoggerCollector.cs:17 | on an empty queue it returns false and null and changes nothing; otherwise it returns true with the head and leaves the rest |
| Collecting.LogCollector.IsEmpty | DatabaseLoggerCollector.cs:18 | true exactly when nothing is queued |
| Collecting.LogCollector.Lines | DatabaseLoggerCollector.cs:26-29 | enumeration yields the `ToString` of each queued entry, in queue order, without changing the queue |
| Collecting.RunIsFifo | DatabaseLoggerCollector.cs:13-17 | over any sequence of enqueues and dequeues, the dequeued items followed by the remaining queue equal the initial queue followed by the enqueued items: FIFO, no loss, no duplication |
| Collecting.LogCollector.Replay | DatabaseLoggerCollector.cs:16-17 | any sequence of `AddEntry` and `TryGetEntry` calls on a collector leaves the queue and returns the dequeued entries exactly as `Run` computes them, so what was dequeued followed by what remains is the earlier queue followed by everything enqueued |
| Collecting.DequeuedIsPrefix | DatabaseLoggerCollector.cs:13-17 | the dequeued items are a prefix of everything queued, and dequeued plus remaining count equals queued count |
| Storage.LogStore.AddRange | IDatabaseLoggerDbContext.cs:28-30 | the entries are staged after those already staged |
| Storage.LogStore.SaveChanges | IDatabaseLoggerDbContext.cs:25 | a save either throws and changes nothing, or commits the staged entries, giving ids only to staged entries and never clearing one |
| Flushing.UnsavedMembership | DatabaseLoggerLogHandler.cs:35-36 | an entry is put back exactly when it is in the batch and its `Id` is still 0 |
| Flushing.UnsavedIsShorter | DatabaseLoggerLogHandler.cs:35-36 | what is put back is no longer than the batch: the whole batch when nothing was saved, nothing when everything was |
| Flushing.DrainedEntriesAccountedFor | DatabaseLoggerLogHandler.cs:31-36 | after a successful save every drained entry is either persisted (`Id != 0`) or back in the collector, never both, and nothing else is put back |
| Flushing.LogHandler.Create | DatabaseLoggerLogHandler.cs:22-26 | a null context throws `ArgumentNull("context")` first, then a null collector throws `ArgumentNull("logCollector")` |
| Flushing.LogHandler.Process | DatabaseLoggerLogHandler.cs:28-38 | the store gets one `AddRange` of the whole drained batch and then one save, whose result is returned; on success the collector holds exactly the batch entries with `Id == 0`, in batch order; when the save throws, nothing is put back and the collector stays empty |
| Flushing.LogHandler.DrainCollector | DatabaseLoggerLogHandler.cs:30-32 | the drain loop leaves the collector empty and the batch equal to the earlier queue, in order |
| Flushing.LogHandler.RequeueUnsaved | DatabaseLoggerLogHandler.cs:35-36 | the re-enqueue loop appends exactly the batch entries whose `Id` is 0, in batch order |
| Logging.JoinSplitRoundTrip | DatabaseLogger.cs:108-114 | joining one or more scope texts with '.' loses nothing when none contains '.': splitting gives them back |
| Logging.ScopeJoinIsAmbiguous | DatabaseLogger.cs:114 | a scope text containing '.' makes two different scope stacks store the same scope |
| Logging.NoScopesStoresNull | DatabaseLogger.cs:114 | with scopes enabled and none pushed, the empty join is stored as a null scope |
| Logging.DatabaseLogger.constructor | DatabaseLogger.cs:37-45 | a null filter becomes accept-all, the scope flag comes from the options, and the logger starts undisposed |
| Logging.DatabaseLogger.Create | DatabaseLogger.cs:40 | the constructor throws `ArgumentNull("name")` exactly for a null name |
| Logging.DatabaseLogger.SetFilter | DatabaseLogger.cs:23-27 | a null filter throws and keeps the old one; any other replaces it |
| Logging.DatabaseLogger.LoadOptions | DatabaseLogger.cs:51-54 | only the scope flag is replaced, by the options' `IncludeScopes` |
| Logging.DatabaseLogger.IsEnabled | DatabaseLogger.cs:91-92 | `None` is never enabled whatever the filter; any other level is enabled exactly when the filter accepts (name, level) |
| Logging.DatabaseLogger.BeginScope | DatabaseLogger.cs:100-101 | with a scope provider the state, null or not, is pushed on its stack; without one the do-nothing handle is returned |
| Logging.DatabaseLogger.ScopeInformation | DatabaseLogger.cs:103-115 | null exactly when scopes are off or no provider is attached; otherwise it throws `NullReferenceException` exactly when a pushed state is null, and else gives the '.'-joined `ToString()` texts (a null text as ""), from which the texts can be recovered when none contains '.' |
| Logging.DatabaseLogger.Dispose | DatabaseLogger.cs:120 | the logger is marked disposed, and stays so if disposed again |
| Logging.DatabaseLogger.Log | DatabaseLogger.cs:66-84 | a disposed logger throws `ObjectDisposed` for any level; a disabled level returns with the collector untouched, even with a null formatter; an enabled level with a null formatter throws; otherwise one fresh entry with `Id` 0, the source name, event id, level, formatted message, normalised scope and exception message is appended and nothing else in the collector changes, unless reading the scopes throws (a null state) or the `ExceptionMessage` setter throws, in which case nothing is enqueued |
| Providers.LoggerProvider.constructor | DatabaseLoggerProvider.cs:29-35 | the manual constructor keeps the given collector, options and possibly-null filter, with an empty cache |
| Providers.LoggerProvider.FromMonitor | DatabaseLoggerProvider.cs:42-49 | the monitor constructor takes the monitor's current options and always installs the accept-all filter |
| Providers.LoggerProvider.EffectiveFilter | DatabaseLoggerProvider.cs:57 | the filter handed to new loggers is the supplied one, or accept-all when it is null |
| Providers.LoggerProvider.CreateLogger | DatabaseLoggerProvider.cs:74-77 | a cached name returns the cached logger and leaves the cache unchanged; a new name creates a logger with the current options, the shared collector, a fresh scope provider and the effective filter, and caches it under that name |
| Providers.LoggerProvider.ReloadOptions | DatabaseLoggerProvider.cs:51-55 | the provider's options are replaced and every cached logger takes over the new scope flag; the cache is unchanged |
| Providers.LoggerProvider.Dispose | DatabaseLoggerProvider.cs:62-67 | every cached logger is marked disposed |

## Left out

- DatabaseLoggerService.cs is not part of this model. It is the hosted service with the `System.Threading.Timer`, async callbacks, DI scopes and the start, stop and reload of the tick interval. Its flush logic is `Process`.
- DatabaseLoggerFactoryExtensions.cs is not part of this model: it is dependency-injection registration only.
- Concurrency: the concurrent queue and dictionary are modelled as a sequential `seq` and `map`. Thread safety, interleavings and `async`/`await` are not modelled.
- The options reload subscription (`OnChange`) and disposal of its token in the provider's `Dispose` are not modelled; `ReloadOptions` is the callback itself.
- `LoggerExternalScopeProvider` is reduced to a stack of scope states with `Push`; popping a scope when its handle is disposed is not modelled.
- The clock, `DateTime` formatting, `exception.ToString()`, each scope state's `ToString()` and the user formatter are parameters. The formatter is a pure function, so whether it was called is not observable in the model.
- Reflection: a type is described by its name and the set of types it is assignable to; `IsAssignableFrom` is a check against that set.
- `[MaxLength]` and `[Column]` attributes are schema hints the code never enforces and are not modelled.
- `Id` (a `long`) and `EventId` (an `int`) are unbounded integers; overflow is not modelled.
- `Source` and `Message` default to null in C#; the model starts them as "", which `ToString` prints the same way.
- A null collector passed to the `DatabaseLogger` constructor, and a null name passed to `CreateLogger` (the dictionary rejects it), are not modelled.
- LogEntries.NormalizeExceptionMessage: lengths and the cut count Unicode code points, not the UTF-16 code units C# `Length` and `Substring` count. So text with characters outside the Basic Multilingual Plane (such as emoji) is rejected or cut at a different place than in C#, and a cut through a surrogate pair cannot be represented.
- `Storage.LogStore.SaveChanges`: EF Core change tracking is not modelled. It returns any count and may give ids to any subset of the staged entries, because the code promises no more.
