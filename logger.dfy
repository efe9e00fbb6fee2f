/** The per-source emitter (DatabaseLogger.cs): level filtering, scope
    capture, building one log entry per enabled call and handing it to the
    shared collector. */
module Logging {
  import opened Base
  import opened LogEntries
  import opened Configuration
  import opened Collecting

  /** The source filter: `(sourceName, level) -> enabled`. */
  type Filter = (string, LogLevel) -> bool

  /** The filter used when none is supplied. */
  const AcceptAll: Filter := (source, level) => true

  /** An exception passed to `Log`; `text` is what its `ToString()` returns. */
  datatype Exception = Exception(text: string)

  /** Microsoft.Extensions.Logging.EventId. */
  datatype EventId = EventId(id: int, name: Nullable<string>)

  /** What `BeginScope` returns: a pushed scope, or the shared do-nothing handle. */
  datatype ScopeHandle = NoScope | PushedScope(depth: nat)

  /** A state passed to `BeginScope`: null, or an object whose `ToString()`
      returns `text`, which may itself be null. */
  datatype ScopeState = NullState | State(text: Nullable<string>)

  /** What `GetScopeInformation` adds for a non-null state: its `ToString()`;
      `string.Join` prints a null one as "". */
  function ScopeText(s: ScopeState): string
    requires s.State?
  {
    if s.text.Null? then "" else s.text.value
  }

  /** The texts of a stack of non-null states, in stack order. */
  function ScopeTexts(states: seq<ScopeState>): (r: seq<string>)
    requires NullState !in states
    ensures |r| == |states|
  {
    seq(|states|, i requires 0 <= i < |states| && states[i].State? => ScopeText(states[i]))
  }

  /** The external scope provider, reduced to its stack of scope states,
      outermost first, as `ForEachScope` visits them. */
  class ScopeProvider {
    var scopes: seq<ScopeState>

    constructor ()
      ensures scopes == []
    {
      scopes := [];
    }

    method Push(state: ScopeState) returns (h: ScopeHandle)
      modifies this
      ensures scopes == old(scopes) + [state] && h == PushedScope(|old(scopes)|)
    {
      h := PushedScope(|scopes|);
      scopes := scopes + [state];
    }
  }

  /** `string.Join(separator, parts)`. */
  function Join(separator: char, parts: seq<string>): string {
    if |parts| == 0 then ""
    else if |parts| == 1 then parts[0]
    else parts[0] + [separator] + Join(separator, parts[1..])
  }

  /** Cutting text at every separator: the inverse of `Join` on parts that do
      not contain the separator. */
  function Split(text: string, separator: char): (r: seq<string>)
    ensures |r| >= 1
  {
    if text == [] then [""]
    else
      var rest := Split(text[1..], separator);
      if text[0] == separator then [""] + rest else [[text[0]] + rest[0]] + rest[1..]
  }

  lemma {:induction false} SplitWithoutSeparator(part: string, separator: char)
    requires separator !in part
    ensures Split(part, separator) == [part]
  {
    if part != [] {
      SplitWithoutSeparator(part[1..], separator);
      assert [part[0]] + part[1..] == part;
    }
  }

  lemma {:induction false} SplitAfterPart(part: string, separator: char, tail: string)
    requires separator !in part
    ensures Split(part + [separator] + tail, separator) == [part] + Split(tail, separator)
  {
    var text := part + [separator] + tail;
    if part == [] {
      assert text[1..] == tail;
    } else {
      SplitAfterPart(part[1..], separator, tail);
      assert text[1..] == part[1..] + [separator] + tail;
      assert [part[0]] + part[1..] == part;
    }
  }

  /** Joining scope texts loses nothing when no text contains the separator:
      splitting the joined text gives the scopes back. */
  lemma {:induction false} JoinSplitRoundTrip(separator: char, parts: seq<string>)
    requires |parts| >= 1
    requires forall i | 0 <= i < |parts| :: separator !in parts[i]
    ensures Split(Join(separator, parts), separator) == parts
  {
    if |parts| == 1 {
      SplitWithoutSeparator(parts[0], separator);
    } else {
      JoinSplitRoundTrip(separator, parts[1..]);
      SplitAfterPart(parts[0], separator, Join(separator, parts[1..]));
      assert [parts[0]] + parts[1..] == parts;
    }
  }

  /** With a scope text that contains '.', two different scope stacks give the
      same stored scope. */
  lemma ScopeJoinIsAmbiguous()
    ensures Join('.', ["a.b"]) == Join('.', ["a", "b"])
  {
  }

  /** An entry logged with scopes enabled but no scope pushed stores a null scope. */
  lemma NoScopesStoresNull()
    ensures NormalizeScope(NotNull(Join('.', []))) == Null
  {
  }

  /** `exception?.ToString()`. */
  function ExceptionToText(exception: Nullable<Exception>): Nullable<string> {
    match exception
    case Null => Null
    case NotNull(x) => NotNull(x.text)
  }

  const DisposedFault := ObjectDisposed("DatabaseLogger")

  const FormatterFault := Argument("formatter", Null)

  class DatabaseLogger {
    const name: string
    const collector: LogCollector
    var disposed: bool
    var filter: Filter
    const scopeProvider: ScopeProvider?
    var includeScopes: bool

    /** The constructor once `name` is known not to be null: a missing filter
        becomes accept-all and the scope flag comes from `options`. */
    constructor (name: string, collector: LogCollector, options: LoggerOptions,
                 scopeProvider: ScopeProvider?, filter: Nullable<Filter>)
      ensures this.name == name && this.collector == collector && this.scopeProvider == scopeProvider
      ensures this.filter == (if filter.Null? then AcceptAll else filter.value)
      ensures includeScopes == options.includeScopes && !disposed
    {
      this.name := name;
      this.collector := collector;
      this.scopeProvider := scopeProvider;
      var chosen: Filter := if filter.Null? then AcceptAll else filter.value;
      this.filter := chosen;
      disposed := false;
      new;
      LoadOptions(options);
    }

    /** `new DatabaseLogger(...)`: a null name throws. */
    static method Create(name: Nullable<string>, collector: LogCollector, options: LoggerOptions,
                         scopeProvider: ScopeProvider?, filter: Nullable<Filter>)
      returns (r: Result<DatabaseLogger, Fault>)
      ensures name.Null? <==> r.Failure?
      ensures r.Failure? ==> r.error == ArgumentNull("name")
      ensures r.Success? ==>
        && fresh(r.value)
        && r.value.name == name.value && r.value.collector == collector
        && r.value.scopeProvider == scopeProvider
        && r.value.filter == (if filter.Null? then AcceptAll else filter.value)
        && r.value.includeScopes == options.includeScopes && !r.value.disposed
    {
      if name.Null? {
        return Failure(ArgumentNull("name"));
      }
      var logger := new DatabaseLogger(name.value, collector, options, scopeProvider, filter);
      r := Success(logger);
    }

    /** The `Filter` setter: null throws and keeps the old filter. */
    method SetFilter(value: Nullable<Filter>) returns (o: Outcome<Fault>)
      modifies this`filter
      ensures value.Null? ==> o == Fail(ArgumentNull("value")) && filter == old(filter)
      ensures value.NotNull? ==> o == Pass && filter == value.value
    {
      if value.Null? {
        return Fail(ArgumentNull("value"));
      }
      filter := value.value;
      o := Pass;
    }

    /** `LoadOptions`: only the scope flag is taken over. */
    method LoadOptions(options: LoggerOptions)
      modifies this`includeScopes
      ensures includeScopes == options.includeScopes
    {
      includeScopes := options.includeScopes;
    }

    /** `IsEnabled`: `None` is never enabled, whatever the filter says. */
    function IsEnabled(level: LogLevel): (r: bool)
      reads this
      ensures level == None ==> !r
      ensures level != None ==> (r <==> filter(name, level))
    {
      level != None && filter(name, level)
    }

    /** `BeginScope`: pushes onto the scope provider when there is one. */
    method BeginScope(state: ScopeState) returns (h: ScopeHandle)
      modifies scopeProvider
      ensures scopeProvider == null ==> h == NoScope
      ensures scopeProvider != null ==>
        && scopeProvider.scopes == old(scopeProvider.scopes) + [state]
        && h == PushedScope(|old(scopeProvider.scopes)|)
    {
      if scopeProvider == null {
        h := NoScope;
      } else {
        h := scopeProvider.Push(state);
      }
    }

    /** `GetScopeInformation`: null unless scopes are included and a provider
        is attached; then `scope.ToString()` on a null state throws, and
        otherwise the scope texts are joined with '.'. */
    function ScopeInformation(): (r: Result<Nullable<string>, Fault>)
      reads this, scopeProvider
      ensures r == Success(Null) <==> !includeScopes || scopeProvider == null
      ensures r.Failure? <==> includeScopes && scopeProvider != null && NullState in scopeProvider.scopes
      ensures r.Failure? ==> r.error == NullReference
      ensures r.Success? && r.value.NotNull? && |scopeProvider.scopes| >= 1
              && (forall i | 0 <= i < |scopeProvider.scopes| ::
                    scopeProvider.scopes[i].State? && '.' !in ScopeText(scopeProvider.scopes[i]))
              ==> Split(r.value.value, '.') == ScopeTexts(scopeProvider.scopes)
    {
      if !includeScopes || scopeProvider == null then Success(Null)
      else if NullState in scopeProvider.scopes then Failure(NullReference)
      else
        var texts := ScopeTexts(scopeProvider.scopes);
        assert |texts| >= 1 && (forall i | 0 <= i < |texts| :: '.' !in texts[i])
               ==> Split(Join('.', texts), '.') == texts by {
          if |texts| >= 1 && forall i | 0 <= i < |texts| :: '.' !in texts[i] {
            JoinSplitRoundTrip('.', texts);
          }
        }
        Success(NotNull(Join('.', texts)))
    }

    /** `Dispose`. */
    method Dispose()
      modifies this`disposed
      ensures disposed
    {
      disposed := true;
    }

    /** `Log`, at time `now`. Checks disposal, then the level, then the
        formatter; an enabled call builds one fresh entry and enqueues it,
        unless reading the scopes or the `ExceptionMessage` setter throws first. */
    method Log<S>(level: LogLevel, eventId: EventId, state: S, exception: Nullable<Exception>,
                  formatter: Nullable<(S, Nullable<Exception>) -> string>, now: DateTime)
      returns (o: Outcome<Fault>)
      modifies collector
      ensures disposed ==> o == Fail(DisposedFault) && collector.queue == old(collector.queue)
      ensures !disposed && !IsEnabled(level) ==> o == Pass && collector.queue == old(collector.queue)
      ensures !disposed && IsEnabled(level) && formatter.Null? ==>
                o == Fail(FormatterFault) && collector.queue == old(collector.queue)
      ensures !disposed && IsEnabled(level) && formatter.NotNull? ==>
        var scope := ScopeInformation();
        var stored := NormalizeExceptionMessage(ExceptionToText(exception));
        && (scope.Failure? ==> o == Fail(scope.error) && collector.queue == old(collector.queue))
        && (scope.Success? && stored.Failure? ==>
              o == Fail(stored.error) && collector.queue == old(collector.queue))
        && (scope.Success? && stored.Success? ==>
              && o == Pass
              && |collector.queue| == |old(collector.queue)| + 1
              && collector.queue[..|old(collector.queue)|] == old(collector.queue)
              && var entry := collector.queue[|old(collector.queue)|];
                 && fresh(entry)
                 && entry.Data() == EntryData(0, now, name, formatter.value(state, exception), level,
                                              eventId.id, NormalizeScope(scope.value), stored.value))
    {
      if disposed {
        return Fail(DisposedFault);
      }
      if !IsEnabled(level) {
        return Pass;
      }
      if formatter.Null? {
        return Fail(FormatterFault);
      }
      var message := formatter.value(state, exception);
      var entry := new LogEntry(now);
      entry.message := message;
      entry.source := name;
      entry.eventId := eventId.id;
      entry.level := level;
      var scope := ScopeInformation();
      if scope.Failure? {
        return Fail(scope.error);
      }
      entry.SetScope(scope.value);
      o := entry.SetExceptionMessage(ExceptionToText(exception));
      if o.Fail? {
        return;
      }
      collector.AddEntry(entry);
    }
  }
}
